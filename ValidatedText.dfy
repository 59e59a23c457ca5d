/**
 * The wrapper-pattern text field: a text input that keeps one flag,
 * `showError`, recomputed from the caller's validator after every edit,
 * and the demo screen that uses it with a "longer than 8" validator.
 */
module ValidatedText {
  import opened Optional

  /** What one render of the field shows. */
  datatype TextFieldView = TextFieldView(value: string, labelText: string, isError: bool, errorLine: Option<string>)

  /**
   * One render: the input shows the caller's `value`, is marked as an error
   * exactly when `showError` is set, and only then is followed by the error
   * line, which reads `errorMessage` or "" when there is none.
   */
  function View(value: string, labelText: string, showError: bool, errorMessage: Option<string>): (v: TextFieldView)
    ensures v.value == value && v.labelText == labelText
    ensures v.isError == showError
    ensures v.errorLine.Some? <==> showError
    ensures showError && errorMessage.Some? ==> v.errorLine == errorMessage
    ensures showError && errorMessage.None? ==> v.errorLine == Some("")
  {
    TextFieldView(value, labelText, showError, if showError then Some(errorMessage.GetOr("")) else None)
  }

  class ValidatedTextField {
    const labelText: string
    const isValid: string -> bool
    const errorMessage: Option<string>
    var showError: bool

    /** The flag starts cleared, whatever the initial text is. */
    constructor (labelText: string, isValid: string -> bool, errorMessage: Option<string> := None)
      ensures this.labelText == labelText && this.isValid == isValid && this.errorMessage == errorMessage
      ensures !showError
    {
      this.labelText := labelText;
      this.isValid := isValid;
      this.errorMessage := errorMessage;
      showError := false;
    }

    /**
     * An edit event: the new text is forwarded to the caller's `onValueChange`
     * (returned here as `forwarded`), then the flag is set from that same text.
     */
    method OnValueChange(text: string) returns (forwarded: string)
      modifies this
      ensures forwarded == text
      ensures showError == !isValid(text)
    {
      forwarded := text;
      showError := !isValid(text);
    }

    /** The field keeps no text of its own: it shows the `value` it is given. */
    function Render(value: string): (v: TextFieldView)
      reads this
      ensures v.value == value && v.labelText == labelText && v.isError == showError
      ensures v.errorLine == if showError then Some(errorMessage.GetOr("")) else None
    {
      View(value, labelText, showError, errorMessage)
    }
  }

  /** The demo validator: more than eight characters. */
  predicate LongerThanEight(text: string)
    ensures |text| <= 8 ==> !LongerThanEight(text)
    ensures |text| >= 9 ==> LongerThanEight(text)
  {
    |text| > 8
  }

  lemma LongerThanEightBoundary()
    ensures !LongerThanEight("12345678") && LongerThanEight("123456789") && !LongerThanEight("")
  {
  }

  const DemoErrorMessage: string := "The size should be upper 8"

  /** The demo screen: it owns the text and forwards every edit into it. */
  class ValidatorFormScreen {
    var text: string
    const field: ValidatedTextField

    constructor ()
      ensures text == "" && fresh(field) && !field.showError
      ensures field.isValid == LongerThanEight && field.errorMessage == Some(DemoErrorMessage)
    {
      text := "";
      field := new ValidatedTextField("Write something", LongerThanEight, Some(DemoErrorMessage));
    }

    method Type(newText: string)
      modifies this, field
      ensures text == newText
      ensures field.showError == !field.isValid(newText)
    {
      var forwarded := field.OnValueChange(newText);
      text := forwarded;
    }

    /** The screen shows its own text in the field, marked by the field's flag. */
    function Render(): (v: TextFieldView)
      reads this, field
      ensures v.value == text && v.isError == field.showError
      ensures v.errorLine == if field.showError then Some(field.errorMessage.GetOr("")) else None
    {
      field.Render(text)
    }
  }

  /**
   * The demo at its boundary: the empty initial text shows no error until
   * the first edit; eight characters then show the message, nine clear it.
   */
  method ValidatorScenario() returns (initially: TextFieldView, afterEight: TextFieldView, afterNine: TextFieldView)
    ensures initially.value == "" && !initially.isError && initially.errorLine == None
    ensures afterEight.value == "12345678" && afterEight.isError
    ensures afterEight.errorLine == Some("The size should be upper 8")
    ensures afterNine.value == "123456789" && !afterNine.isError && afterNine.errorLine == None
  {
    var screen := new ValidatorFormScreen();
    initially := screen.Render();
    screen.Type("12345678");
    afterEight := screen.Render();
    screen.Type("123456789");
    afterNine := screen.Render();
  }
}
