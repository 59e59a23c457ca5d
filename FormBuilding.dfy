/**
 * The form description of the builder pattern demo: the `FormField`
 * descriptors and the `FormBuilder` that collects them in call order.
 * Click callbacks are not modelled (the form never invokes them).
 */
module FormBuilding {
  import opened Optional
  import KotlinStrings

  /** The colours the builder's defaults and the demo name; any other colour is `Other`. */
  datatype Color = Gray | Blue | Red | White | Green | Other(argb: nat)

  /** The default `isEnabled` of a button: the constant lambda `{ true }`. */
  function AlwaysEnabled(): bool {
    true
  }

  /** The default validator of `numericTextField`: `it.toIntOrNull() != null`. */
  predicate ParsesAsInt(text: string)
    ensures ParsesAsInt(text) ==> |text| > 0
    ensures ParsesAsInt(text) ==> text[0] == '-' || text[0] == '+' || KotlinStrings.IsDigit(text[0])
    ensures forall n :: KotlinStrings.ToIntOrNull(text) == Some(n) ==> (ParsesAsInt(text) && KotlinStrings.InIntRange(n))
  {
    KotlinStrings.ToIntOrNull(text).Some?
  }

  const DefaultEmailError: string := "Invalid email format"
  const DefaultNumericError: string := "Invalid numeric format"

  /** A form field descriptor; the defaults are those of Kotlin's data classes. */
  datatype FormField =
    | Text(labelText: string, initialValue: string, isValid: string -> bool, errorMessage: Option<string> := None)
    | Button(title: string, background: Color, disableBackground: Color := Gray, textColor: Color,
             isEnabled: () -> bool := AlwaysEnabled)

  /** The `MutableList<FormField>` a builder fills; `build()` hands out this very object. */
  class FieldList {
    var items: seq<FormField>

    constructor ()
      ensures items == []
    {
      items := [];
    }

    /** `MutableList.add`: appends at the end. */
    method Add(field: FormField)
      modifies this
      ensures items == old(items) + [field]
    {
      items := items + [field];
    }
  }

  class FormBuilder {
    const fields: FieldList

    constructor ()
      ensures fresh(fields) && fields.items == []
    {
      fields := new FieldList();
    }

    method SimpleTextField(labelText: string, initialValue: string := "", isValid: string -> bool,
                           errorMessage: Option<string> := None)
      modifies fields
      ensures fields.items == old(fields.items) + [Text(labelText, initialValue, isValid, errorMessage)]
    {
      fields.Add(Text(labelText, initialValue, isValid, errorMessage));
    }

    /**
     * The validator of an email field is the platform's email-address
     * pattern, which is supplied here as `emailAddressPattern`.
     */
    method EmailTextField(labelText: string, initialValue: string := "",
                          errorMessage: Option<string> := Some(DefaultEmailError),
                          emailAddressPattern: string -> bool)
      modifies fields
      ensures fields.items == old(fields.items) + [Text(labelText, initialValue, emailAddressPattern, errorMessage)]
    {
      fields.Add(Text(labelText, initialValue, emailAddressPattern, errorMessage));
    }

    method NumericTextField(labelText: string, initialValue: string := "0", isValid: string -> bool := ParsesAsInt,
                            errorMessage: Option<string> := Some(DefaultNumericError))
      modifies fields
      ensures fields.items == old(fields.items) + [Text(labelText, initialValue, isValid, errorMessage)]
    {
      fields.Add(Text(labelText, initialValue, isValid, errorMessage));
    }

    /** A plain button: the data-class defaults give it a gray disabled colour and `isEnabled = { true }`. */
    method SimpleButton(title: string, background: Color := Blue, textColor: Color := White)
      modifies fields
      ensures fields.items == old(fields.items) + [Button(title, background, Gray, textColor, AlwaysEnabled)]
    {
      fields.Add(Button(title := title, background := background, textColor := textColor));
    }

    /** A button with the caller's enablement predicate, stored as given. */
    method EnableButton(title: string, background: Color := Red, textColor: Color := White,
                        isEnabled: () -> bool)
      modifies fields
      ensures fields.items == old(fields.items) + [Button(title, background, Gray, textColor, isEnabled)]
    {
      fields.Add(Button(title := title, background := background, textColor := textColor, isEnabled := isEnabled));
    }

    /** `build()` returns the builder's own list, not a copy. */
    method Build() returns (list: FieldList)
      ensures list == fields
    {
      list := fields;
    }
  }

  /** What `numericTextField(labelText)` stores when every optional argument is left out. */
  method NumericDefaults(labelText: string) returns (field: FormField)
    ensures field.Text? && field.labelText == labelText
    ensures field.initialValue == "0" && field.errorMessage == Some("Invalid numeric format")
    ensures forall text :: field.isValid(text) <==> KotlinStrings.ToIntOrNull(text) != None
    ensures field.isValid("42") && !field.isValid("forty-two")
  {
    var builder := new FormBuilder();
    builder.NumericTextField(labelText);
    var list := builder.Build();
    field := list.items[0];
    KotlinStrings.ToIntOrNullExamples();
  }

  /** What `emailTextField(labelText)` stores when every optional argument is left out. */
  method EmailDefaults(labelText: string, emailAddressPattern: string -> bool) returns (field: FormField)
    ensures field.Text? && field.labelText == labelText
    ensures field.initialValue == "" && field.errorMessage == Some("Invalid email format")
    ensures forall text :: field.isValid(text) == emailAddressPattern(text)
  {
    var builder := new FormBuilder();
    builder.EmailTextField(labelText, emailAddressPattern := emailAddressPattern);
    var list := builder.Build();
    field := list.items[0];
  }

  /** `simpleButton` makes a button that is always enabled on its own and grays out when disabled. */
  method SimpleButtonDefaults(title: string) returns (field: FormField)
    ensures field.Button? && field.title == title
    ensures field.isEnabled() && field.disableBackground == Gray
    ensures field.background == Blue && field.textColor == White
  {
    var builder := new FormBuilder();
    builder.SimpleButton(title);
    var list := builder.Build();
    field := list.items[0];
  }

  /** `enableButton` keeps the caller's predicate: its result is whatever the caller's is. */
  method EnableButtonKeepsPredicate(title: string, isEnabled: () -> bool) returns (field: FormField)
    ensures field.Button? && field.title == title
    ensures field.isEnabled() == isEnabled() && field.disableBackground == Gray
    ensures field.background == Red && field.textColor == White
  {
    var builder := new FormBuilder();
    builder.EnableButton(title, isEnabled := isEnabled);
    var list := builder.Build();
    field := list.items[0];
  }

  /**
   * Because `build()` returns the live list, a field added after `build()`
   * shows up in the list that was already handed out.
   */
  method BuildThenAdd(title: string) returns (sizeAtBuild: nat, sizeAfterAdd: nat)
    ensures sizeAtBuild == 0 && sizeAfterAdd == 1
  {
    var builder := new FormBuilder();
    var list := builder.Build();
    sizeAtBuild := |list.items|;
    builder.SimpleButton(title);
    sizeAfterAdd := |list.items|;
  }
}
