/**
 * The demo form: its validators, the builder script that describes its six
 * fields, and what a user sees on mounting it and after a few edits.
 */
module DynamicFormScreen {
  import opened Optional
  import opened FormBuilding
  import opened DynamicForms
  import KotlinStrings

  /** The "Edad" validator: `it.toIntOrNull() in 1..90`; a null result is not in the range. */
  predicate AgeIsValid(text: string)
    ensures AgeIsValid(text) ==> ParsesAsInt(text)
    ensures AgeIsValid(text) <==> exists n :: 1 <= n <= 90 && KotlinStrings.ToIntOrNull(text) == Some(n)
  {
    match KotlinStrings.ToIntOrNull(text)
    case Some(n) => 1 <= n <= 90
    case None => false
  }

  /** On the text of any `Int`, the age validator accepts exactly 1 through 90. */
  lemma AgeAcceptsOneThroughNinety(n: int)
    requires KotlinStrings.InIntRange(n)
    ensures AgeIsValid(KotlinStrings.IntToString(n)) <==> 1 <= n <= 90
  {
    KotlinStrings.IntToStringRoundTrip(n);
  }

  lemma AgeExamples()
    ensures AgeIsValid("90") && AgeIsValid("1") && AgeIsValid("30") && AgeIsValid("+30")
    ensures !AgeIsValid("0") && !AgeIsValid("91") && !AgeIsValid("") && !AgeIsValid("abc")
  {
    AgeAcceptsOneThroughNinety(90);
    assert KotlinStrings.IntToString(90) == "90";
    AgeAcceptsOneThroughNinety(1);
    assert KotlinStrings.IntToString(1) == "1";
    AgeAcceptsOneThroughNinety(0);
    assert KotlinStrings.IntToString(0) == "0";
    AgeAcceptsOneThroughNinety(91);
    assert KotlinStrings.IntToString(91) == "91";
    AgeAcceptsOneThroughNinety(30);
    assert KotlinStrings.IntToString(30) == "30";
    assert "+30"[1..] == "30";
    KotlinStrings.NonDigitRejected("abc", 0);
  }

  const NombreIndex: nat := 0
  const ApellidoIndex: nat := 1
  const EmailIndex: nat := 2
  const EdadIndex: nat := 3
  const EnviarIndex: nat := 4
  const DeshabilitarIndex: nat := 5

  /** The demo's builder script, with the platform's email pattern as a parameter. */
  method DemoFields(emailAddressPattern: string -> bool) returns (fields: seq<FormField>)
    ensures fields == [
      Text("Nombre", "", KotlinStrings.IsNotBlank, Some("Debe ingresar un nombre")),
      Text("Apellido", "", KotlinStrings.IsNotBlank, Some("Debe ingresar un apellido")),
      Text("Email", "", emailAddressPattern, Some("Debe ingresar un email válido")),
      Text("Edad", "0", AgeIsValid, Some("Debe ingresar una edad válida")),
      Button("Enviar", Green, Gray, White, AlwaysEnabled),
      Button("Deshabilitar", Red, Gray, White, AlwaysEnabled)
    ]
  {
    var builder := new FormBuilder();
    builder.SimpleTextField(labelText := "Nombre", initialValue := "", isValid := KotlinStrings.IsNotBlank,
                            errorMessage := Some("Debe ingresar un nombre"));
    builder.SimpleTextField(labelText := "Apellido", initialValue := "", isValid := KotlinStrings.IsNotBlank,
                            errorMessage := Some("Debe ingresar un apellido"));
    builder.EmailTextField(labelText := "Email", initialValue := "",
                           errorMessage := Some("Debe ingresar un email válido"),
                           emailAddressPattern := emailAddressPattern);
    builder.NumericTextField(labelText := "Edad", initialValue := "0", isValid := AgeIsValid,
                             errorMessage := Some("Debe ingresar una edad válida"));
    builder.SimpleButton(title := "Enviar", background := Green, textColor := White);
    // the demo's `isEnabled = { true }`
    builder.EnableButton(title := "Deshabilitar", background := Red, textColor := White, isEnabled := AlwaysEnabled);
    var list := builder.Build();
    fields := list.items;
  }

  /**
   * A freshly mounted demo form: "Nombre" shows its empty initial value,
   * which its validator rejects, yet no error is shown and both buttons are
   * enabled, because nothing has been edited and so nothing is recorded.
   */
  method FreshDemoForm(emailAddressPattern: string -> bool)
    returns (nombreText: string, nombreShowsError: bool, enviarEnabled: bool, deshabilitarEnabled: bool)
    ensures nombreText == "" && !KotlinStrings.IsNotBlank(nombreText)
    ensures !nombreShowsError && enviarEnabled && deshabilitarEnabled
  {
    var fields := DemoFields(emailAddressPattern);
    var form := new DynamicForm(fields);
    var view := form.RenderText(NombreIndex);
    nombreText := view.value;
    nombreShowsError := view.isError;
    enviarEnabled := form.ButtonEnabled(EnviarIndex);
    deshabilitarEnabled := form.ButtonEnabled(DeshabilitarIndex);
  }

  /**
   * Typing "" and then "David" into "Nombre": the first edit records an error
   * and disables both buttons (the plain "Enviar" as well as the gated one),
   * the second clears it and enables them again.
   */
  method NombreScenario(emailAddressPattern: string -> bool)
    returns (enviarAfterEmpty: bool, deshabilitarAfterEmpty: bool, enviarAfterName: bool, deshabilitarAfterName: bool)
    ensures !enviarAfterEmpty && !deshabilitarAfterEmpty
    ensures enviarAfterName && deshabilitarAfterName
  {
    var fields := DemoFields(emailAddressPattern);
    var form := new DynamicForm(fields);
    form.Edit(NombreIndex, "");
    enviarAfterEmpty := form.ButtonEnabled(EnviarIndex);
    deshabilitarAfterEmpty := form.ButtonEnabled(DeshabilitarIndex);
    KotlinStrings.BlankExamples();
    form.Edit(NombreIndex, "David");
    assert form.errors == map["Nombre" := false];
    enviarAfterName := form.ButtonEnabled(EnviarIndex);
    deshabilitarAfterName := form.ButtonEnabled(DeshabilitarIndex);
  }

  /**
   * Editing "Edad" to "30" and then "Email" to a text the email pattern
   * rejects: "Edad" keeps its text and its recorded validity, and the
   * email error alone disables the buttons.
   */
  method NoCrossFieldInterference(emailAddressPattern: string -> bool, badEmail: string)
    returns (edadValue: Option<string>, edadError: Option<bool>, emailError: Option<bool>, enviarEnabled: bool)
    requires !emailAddressPattern(badEmail)
    ensures edadValue == Some("30") && edadError == Some(false)
    ensures emailError == Some(true) && !enviarEnabled
  {
    var fields := DemoFields(emailAddressPattern);
    var form := new DynamicForm(fields);
    AgeExamples();
    form.Edit(EdadIndex, "30");
    form.Edit(EmailIndex, badEmail);
    edadValue := if "Edad" in form.values then Some(form.values["Edad"]) else None;
    edadError := if "Edad" in form.errors then Some(form.errors["Edad"]) else None;
    emailError := if "Email" in form.errors then Some(form.errors["Email"]) else None;
    enviarEnabled := form.ButtonEnabled(EnviarIndex);
  }
}
