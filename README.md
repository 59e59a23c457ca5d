# Dynamic form builder and validated text field

A Dafny model of the builder-pattern form of the ComposePatterns Android
catalogue and of the wrapper-pattern `ValidatedTextField` it renders its
text inputs through.

- `FormBuilding` models the form description. `FormField` is a tagged union
  of `Text` fields (label, initial value, validator, optional error message)
  and `Button`s (title, colours, enablement predicate). The Kotlin
  data-class defaults become Dafny constructor defaults. `FormBuilder` owns a
  `FieldList`, the mutable list. Each builder call appends one descriptor at
  the end. `Build` hands out the builder's own list object, not a copy.
- `DynamicForms` models the runtime state of a rendered form as a class.
  Each position keeps the text its field shows and its error flag. There are
  also two maps keyed by label, `values` and `errors`. `Edit` is the
  per-keystroke handler, and `ButtonEnabled` is the button rule: a button is
  enabled when its own predicate holds and no `errors` entry is true. A ghost
  edit history ties both maps to a replay of all edits. The lemmas state, for
  every label, what the latest edit of that label decides.
- `DynamicFormScreen` models the demo: its "Edad" validator (`1..90`), its
  builder script, and three scenarios. The scenarios cover a fresh mount,
  typing into "Nombre", and the fact that editing one field leaves the others
  untouched.
- `ValidatedText` models the one-flag text field component, what one render
  of it shows, and its demo screen with the "longer than 8" validator.
- `KotlinStrings` gives the meaning of the Kotlin library calls the validators
  use: `isBlank`, `toIntOrNull` and, as a reference for round trips,
  `Int.toString()`.

The platform's email-address pattern is foreign code. It is passed in as a
parameter `emailAddressPattern: string -> bool` wherever an email field is
built.

Three behaviours of the code that a reader might not expect:
- Every button is gated by the recorded errors, `simpleButton` included
  (FormScreenWithBuilder.kt:180). A plain button's `isEnabled` is the default
  `{ true }`, so its rule reduces to "no recorded error". `NombreScenario`
  proves the plain "Enviar" button is disabled once an error is recorded.
- `build()` returns the live list (FormScreenWithBuilder.kt:139). A field
  added after `build()` shows up in the list already handed out
  (`BuildThenAdd`).
- Duplicate labels are not rejected. Fields with the same label share one
  key in each map, so the last write wins (`SharedLabelLastWriteWins`). Each
  field's shown text and error flag stay per position.

## Model

| member | source | states |
|---|---|---|
| `KotlinStrings.IsWhitespace` | app/src/main/java/com/davidmerchan/composepatterns/patterns/builder_pattern/FormScreenWithBuilder.kt:210 | space, tab, newline and carriage return are whitespace; no digit or sign is |
| `KotlinStrings.IsBlank` | app/src/main/java/com/davidmerchan/composepatterns/patterns/builder_pattern/FormScreenWithBuilder.kt:210 | the empty string is blank; a blank string contains no digit |
| `KotlinStrings.IsNotBlank` | app/src/main/java/com/davidmerchan/composepatterns/patterns/builder_pattern/FormScreenWithBuilder.kt:216 | a text passes the demo name validators iff some character is not whitespace, so it is non-empty |
| `KotlinStrings.ToIntOrNull` | app/src/main/java/com/davidmerchan/composepatterns/patterns/builder_pattern/FormScreenWithBuilder.kt:92 | a parsed value always lies in the 32-bit `Int` range and comes from a non-empty string |
| `KotlinStrings.IntToStringRoundTrip` | app/src/main/java/com/davidmerchan/composepatterns/patterns/builder_pattern/FormScreenWithBuilder.kt:92 | every 32-bit `Int` written by `toString()` parses back to itself, so the numeric default validator accepts every `Int`'s text |
| `KotlinStrings.NonDigitRejected` | app/src/main/java/com/davidmerchan/composepatterns/patterns/builder_pattern/FormScreenWithBuilder.kt:92 | any character that is neither a digit nor a leading sign makes the parse fail |
| `KotlinStrings.LoneSignRejected` | app/src/main/java/com/davidmerchan/composepatterns/patterns/builder_pattern/FormScreenWithBuilder.kt:92 | "-" and "+" alone do not parse |
| `KotlinStrings.ToIntOrNullExamples` | app/src/main/java/com/davidmerchan/composepatterns/patterns/builder_pattern/FormScreenWithBuilder.kt:92 | "42" parses to 42, signs and leading zeros are accepted, "forty-two", "" and "4 2" are rejected |
| `KotlinStrings.ToIntOrNullBounds` | app/src/main/java/com/davidmerchan/composepatterns/patterns/builder_pattern/FormScreenWithBuilder.kt:92 | `Int.MAX_VALUE` and `Int.MIN_VALUE` parse, one beyond either bound does not |
| `KotlinStrings.NotBlankWitness` | app/src/main/java/com/davidmerchan/composepatterns/patterns/builder_pattern/FormScreenWithBuilder.kt:210 | a string with one non-whitespace character passes the non-blank validator |
| `KotlinStrings.BlankExamples` | app/src/main/java/com/davidmerchan/composepatterns/patterns/builder_pattern/FormScreenWithBuilder.kt:216 | "", spaces and tab/newline are rejected as blank, "David" and "  x " accepted |
| `FormBuilding.FormField` | app/src/main/java/com/davidmerchan/composepatterns/patterns/builder_pattern/FormScreenWithBuilder.kt:31-47 | a field is either a `Text` (label, initial value, validator, optional message) or a `Button` (title, colours, optional predicate), with the data-class defaults gray and `{ true }` |
| `FormBuilding.ParsesAsInt` | app/src/main/java/com/davidmerchan/composepatterns/patterns/builder_pattern/FormScreenWithBuilder.kt:92 | the numeric default validator accepts every text that `toIntOrNull` parses, and only non-empty texts starting with a sign or a digit |
| `FormBuilding.FieldList.Add` | app/src/main/java/com/davidmerchan/composepatterns/patterns/builder_pattern/FormScreenWithBuilder.kt:51 | the mutable list's `add` appends at the end and keeps the earlier items |
| `FormBuilding.FormBuilder.constructor` | app/src/main/java/com/davidmerchan/composepatterns/patterns/builder_pattern/FormScreenWithBuilder.kt:49-51 | a new builder owns a fresh, empty list |
| `FormBuilding.FormBuilder.SimpleTextField` | app/src/main/java/com/davidmerchan/composepatterns/patterns/builder_pattern/FormScreenWithBuilder.kt:54-68 | the list becomes the old list plus one `Text` with exactly the caller's label, initial value, validator and message |
| `FormBuilding.FormBuilder.EmailTextField` | app/src/main/java/com/davidmerchan/composepatterns/patterns/builder_pattern/FormScreenWithBuilder.kt:71-86 | one `Text` appended whose validator is the email pattern |
| `FormBuilding.FormBuilder.NumericTextField` | app/src/main/java/com/davidmerchan/composepatterns/patterns/builder_pattern/FormScreenWithBuilder.kt:89-103 | one `Text` appended with the caller's (or the default) validator and message |
| `FormBuilding.FormBuilder.SimpleButton` | app/src/main/java/com/davidmerchan/composepatterns/patterns/builder_pattern/FormScreenWithBuilder.kt:105-119 | one `Button` appended with gray disabled colour and the constant-true predicate |
| `FormBuilding.FormBuilder.EnableButton` | app/src/main/java/com/davidmerchan/composepatterns/patterns/builder_pattern/FormScreenWithBuilder.kt:121-137 | one `Button` appended that carries the caller's predicate unchanged |
| `FormBuilding.FormBuilder.Build` | app/src/main/java/com/davidmerchan/composepatterns/patterns/builder_pattern/FormScreenWithBuilder.kt:139 | the result is the builder's own list object, so it holds the fields in call order |
| `FormBuilding.NumericDefaults` | app/src/main/java/com/davidmerchan/composepatterns/patterns/builder_pattern/FormScreenWithBuilder.kt:89-93 | with defaults the field starts at "0", says "Invalid numeric format" and accepts exactly the texts that parse as `Int` ("42" yes, "forty-two" no) |
| `FormBuilding.EmailDefaults` | app/src/main/java/com/davidmerchan/composepatterns/patterns/builder_pattern/FormScreenWithBuilder.kt:71-74 | with defaults the field starts empty, says "Invalid email format" and validates by the email pattern |
| `FormBuilding.SimpleButtonDefaults` | app/src/main/java/com/davidmerchan/composepatterns/patterns/builder_pattern/FormScreenWithBuilder.kt:105-118 | a plain button's own predicate is true, its disabled colour gray, its colours blue on white |
| `FormBuilding.EnableButtonKeepsPredicate` | app/src/main/java/com/davidmerchan/composepatterns/patterns/builder_pattern/FormScreenWithBuilder.kt:121-136 | a gated button's predicate returns what the caller's returns; default colours red on white |
| `FormBuilding.BuildThenAdd` | app/src/main/java/com/davidmerchan/composepatterns/patterns/builder_pattern/FormScreenWithBuilder.kt:139 | a field added after `build()` appears in the already returned list (size 0, then 1) |
| `DynamicForms.LatestEdit` | app/src/main/java/com/davidmerchan/composepatterns/patterns/builder_pattern/FormScreenWithBuilder.kt:164-167 | no latest edit exactly when the label was never edited; otherwise it is an edit of that label in the history after which no edit of that label follows |
| `DynamicForms.ReplayIsLatestEdit` | app/src/main/java/com/davidmerchan/composepatterns/patterns/builder_pattern/FormScreenWithBuilder.kt:164-167 | after any edits, both maps have an entry exactly for the edited labels, holding the latest edit's text and its negated verdict |
| `DynamicForms.SharedLabelLastWriteWins` | app/src/main/java/com/davidmerchan/composepatterns/patterns/builder_pattern/FormScreenWithBuilder.kt:166-167 | of two edits to one label only the later one affects either map |
| `DynamicForms.RecordedErrors` | app/src/main/java/com/davidmerchan/composepatterns/patterns/builder_pattern/FormScreenWithBuilder.kt:180 | the filter keeps exactly the entries whose value is true |
| `DynamicForms.NoRecordedError` | app/src/main/java/com/davidmerchan/composepatterns/patterns/builder_pattern/FormScreenWithBuilder.kt:180 | `errors.filter { it.value }.isEmpty()` holds iff no entry of `errors` is true |
| `DynamicForms.NoRecordedErrorAfterEdits` | app/src/main/java/com/davidmerchan/composepatterns/patterns/builder_pattern/FormScreenWithBuilder.kt:180 | after any edits, the error gate is open iff the latest edit of every edited label was valid |
| `DynamicForms.InitialTexts` | app/src/main/java/com/davidmerchan/composepatterns/patterns/builder_pattern/FormScreenWithBuilder.kt:160 | every text field position starts with its field's initial value |
| `DynamicForms.DynamicForm.constructor` | app/src/main/java/com/davidmerchan/composepatterns/patterns/builder_pattern/FormScreenWithBuilder.kt:151-160 | at mount the fields are the built list, each text shows its initial value, no flag is set and both maps are empty |
| `DynamicForms.DynamicForm.Edit` | app/src/main/java/com/davidmerchan/composepatterns/patterns/builder_pattern/FormScreenWithBuilder.kt:164-168 | the field's text becomes the new text, `values[L]` the text and `errors[L]` the negated verdict, every other key and position unchanged; the field's flag follows the same verdict |
| `DynamicForms.DynamicForm.ButtonEnabled` | app/src/main/java/com/davidmerchan/composepatterns/patterns/builder_pattern/FormScreenWithBuilder.kt:180 | any button is enabled iff its own predicate holds and no entry of `errors` is true |
| `DynamicForms.DynamicForm.RenderText` | app/src/main/java/com/davidmerchan/composepatterns/patterns/builder_pattern/FormScreenWithBuilder.kt:162-172 | a text field shows its own remembered text, its label and its own error flag, and when the flag is set the error line reads the field's message or "" |
| `DynamicFormScreen.AgeIsValid` | app/src/main/java/com/davidmerchan/composepatterns/patterns/builder_pattern/FormScreenWithBuilder.kt:227 | the "Edad" validator accepts a text iff it parses to an `Int` from 1 to 90; every accepted text also passes the numeric default |
| `DynamicFormScreen.AgeAcceptsOneThroughNinety` | app/src/main/java/com/davidmerchan/composepatterns/patterns/builder_pattern/FormScreenWithBuilder.kt:227 | on the text of any `Int` n the "Edad" validator accepts iff 1 <= n <= 90 |
| `DynamicFormScreen.AgeExamples` | app/src/main/java/com/davidmerchan/composepatterns/patterns/builder_pattern/FormScreenWithBuilder.kt:227 | "90", "1", "30", "+30" accepted; "0", "91", "" and "abc" rejected |
| `DynamicFormScreen.DemoFields` | app/src/main/java/com/davidmerchan/composepatterns/patterns/builder_pattern/FormScreenWithBuilder.kt:206-246 | the script builds exactly the six demo fields in order, with their labels, initial values, validators, messages and colours |
| `DynamicFormScreen.FreshDemoForm` | app/src/main/java/com/davidmerchan/composepatterns/patterns/builder_pattern/FormScreenWithBuilder.kt:151-191 | on mount "Nombre" shows an empty text that its validator rejects, shows no error, and both buttons are enabled |
| `DynamicFormScreen.NombreScenario` | app/src/main/java/com/davidmerchan/composepatterns/patterns/builder_pattern/FormScreenWithBuilder.kt:164-180 | typing "" into "Nombre" disables both buttons, plain and gated; typing "David" enables them again |
| `DynamicFormScreen.NoCrossFieldInterference` | app/src/main/java/com/davidmerchan/composepatterns/patterns/builder_pattern/FormScreenWithBuilder.kt:164-167 | an invalid email edit leaves "Edad"'s text and recorded validity as they were and alone closes the gate |
| `ValidatedText.View` | app/src/main/java/com/davidmerchan/composepatterns/patterns/wrapper/ValidatedTextField.kt:55-76 | the input shows the given value, `isError` equals the flag, the error line appears iff the flag is set and reads the message or "" |
| `ValidatedText.ValidatedTextField.constructor` | app/src/main/java/com/davidmerchan/composepatterns/patterns/wrapper/ValidatedTextField.kt:52 | the flag starts false whatever the initial text |
| `ValidatedText.ValidatedTextField.OnValueChange` | app/src/main/java/com/davidmerchan/composepatterns/patterns/wrapper/ValidatedTextField.kt:57-60 | the same text is forwarded to the caller and the flag becomes its negated verdict |
| `ValidatedText.ValidatedTextField.Render` | app/src/main/java/com/davidmerchan/composepatterns/patterns/wrapper/ValidatedTextField.kt:46-56 | the field shows the caller-supplied value, never text of its own, and marks the error by its flag |
| `ValidatedText.LongerThanEight` | app/src/main/java/com/davidmerchan/composepatterns/patterns/wrapper/ValidatedTextField.kt:33 | texts of at most 8 characters are rejected, texts of 9 or more accepted |
| `ValidatedText.LongerThanEightBoundary` | app/src/main/java/com/davidmerchan/composepatterns/patterns/wrapper/ValidatedTextField.kt:33 | 8 characters are rejected, 9 accepted, "" rejected |
| `ValidatedText.ValidatorFormScreen.constructor` | app/src/main/java/com/davidmerchan/composepatterns/patterns/wrapper/ValidatedTextField.kt:23-34 | the screen's text starts empty and its field uses the length validator and message with no error shown |
| `ValidatedText.ValidatorFormScreen.Render` | app/src/main/java/com/davidmerchan/composepatterns/patterns/wrapper/ValidatedTextField.kt:29-35 | the screen shows its own text in the field, marked by the field flag, with the demo message (or "") when the flag is set |
| `ValidatedText.ValidatorFormScreen.Type` | app/src/main/java/com/davidmerchan/composepatterns/patterns/wrapper/ValidatedTextField.kt:30-33 | an edit becomes the screen's text and sets the field's flag from that text |
| `ValidatedText.ValidatorScenario` | app/src/main/java/com/davidmerchan/composepatterns/patterns/wrapper/ValidatedTextField.kt:21-38 | the empty initial text shows no error; after 8 characters the message shows; after 9 it is gone |

## Left out

- Email validation: the platform's email-address pattern is foreign code. It is a parameter, so nothing is proved about which addresses it accepts.
- Click handling: the form's button `onClick` only prints. The builder's `onClick` callbacks are never invoked, and `onSubmit` is never used. None of these is modelled.
- Styling and layout: `Modifier`, `Column`, `Scaffold`, theme colours and typography are not modelled. The three colours a `Button` stores are kept as plain values.
- Recomposition: the framework re-runs the builder script on every recomposition and keeps `remember`ed state by position. The model mounts once and keeps that state in explicit fields.
- `FormField.Text.isValid`: validators are total Dafny functions with no reads, so they always return and always give the same verdict. A Kotlin `(String) -> Boolean` could throw or read mutable state. The source calls the validator twice per edit (FormScreenWithBuilder.kt:167, then ValidatedTextField.kt:59). If it threw at :167, `value` and `values[L]` would already be written but `errors[L]` would not. If it read mutable state, `errors[L]` and the field's `showError` could disagree. `DynamicForm.Edit` promises they agree, which holds only for a pure validator.
- `FormField.Button.isEnabled` is a Dafny arrow with no reads, so it is a constant per button. A Kotlin lambda could read mutable state that changes between renders.
- `KotlinStrings.IsWhitespace`: only the ASCII whitespace characters are modelled, not Unicode space separators beyond ASCII.
- `KotlinStrings.ToIntOrNull`: only ASCII digits are accepted. Kotlin also accepts other Unicode decimal digits. The model gives the library call's result, not its internal overflow-checking loop.
- `ValidatedText.LongerThanEight`: it counts Unicode scalar values. Kotlin's `length` counts UTF-16 code units, so a character outside the Basic Multilingual Plane counts 1 here and 2 in Kotlin.
- The form's `values` map is written on every edit but never read by the form. The model keeps it and proves what it holds.
- The other pattern demos (counters, click counter, profile cards, compound component scope) and the activity entry point are presentation wiring. They are not part of this model.
