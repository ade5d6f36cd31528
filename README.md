# Form validation engine, modelled in Dafny

This project models the validation engine of `swift-form-validation`, a
Swift library for forms built on The Composable Architecture. The engine
has four parts:

- A **validation rule** pairs an error message with a predicate. A list of
  rules is checked in order, and the list reports the message of the first
  rule that fails, or nothing when every rule passes.
- The **rule factories** build common rules: non-empty, minimum length,
  greater-or-equal, equality and "the optional value is present".
- A **field validation** links one field of the host's state to a rule
  list and to the error property that receives the outcome. Validating
  writes that error property, including setting a stale error back to nil,
  and returns whether the field passed.
- The **form validation reducer** handles the form's actions. On the
  submit action it runs every field validation in registration order,
  without stopping at a failure. It sends the configured success action
  only when all of them passed. On a binding action it re-validates only
  the first validation whose binding is the changed key path. It ignores
  every other action.

The library ships as two packages, `FormValidation` and
`AvivFormValidation`. Their rule types and rule-list evaluation are the
same code. `AvivFormValidation` has fewer factories. Its `ValidatableField`
has only the string-literal initialiser. The integer, float and boolean
literal initialisers exist only in `FormValidation`, and
`FromIntegerLiteral` and `FromBooleanLiteral` model the integer and
boolean ones. The model covers the union once, and the table cites
whichever copy holds the lines.

Modules, one per source concern:

| file | module | models |
|---|---|---|
| `wrappers.dfy` | `Wrappers` | Swift's `T?` as `Option<T>` |
| `validation_rule.dfy` | `ValidationRules` | `ValidationRule` and `Collection.validate` |
| `rule_factories.dfy` | `RuleFactories` | the static rule factories and their message templates |
| `validatable_field.dfy` | `ValidatableFields` | `ValidatableField` and its literal initialisers |
| `form_state.dfy` | `FormStates` | the host state the engine reads and writes (`inout State`) |
| `field_validation.dfy` | `FieldValidations` | `FieldValidation`, its initialisers and `validate(state:)` |
| `form_validation_reducer.dfy` | `FormValidationReducers` | `reduce(into:action:)`, `validateAllFields`, `getFirstValidation` |
| `scenarios.dfy` | `Scenarios` | the package tests replayed: rule lists, field validation, the reducer test |
| `image_submission.dfy` | `ImageSubmission` | the example app's image submission form and its tests |

How Swift constructs are represented:

- **Key paths.** The host state is a class `FormState` with two maps. The
  map `values` holds the field values and the map `errors` holds the
  optional error texts; each map is keyed by the property's name.
- **A `ValidatableField` stored under key `k`** is the pair `values[k]` and
  `errors[k]`.
- **A field's binding** is a `KeyPath`. It is `Field(k)` for `\.k`, and
  `FieldValue(k)` or `FieldErrorText(k)` for `\.k.value` or `\.k.errorText`.
- **The typed half of a key path** is a `read` function. It extracts the
  rules' value type from the stored value.
- **Rules** are a datatype holding a closure, as in the source.
- **Swift `String?`** is `Option<string>`, and nil is `None`.

The model follows the code in one edge of the matching. A field
validation built from a `ValidatableField` binds the field's base key path.
A binding action that names `\.k.value` directly is therefore not matched,
and that field is not re-validated on the fly.
`ImageSubmission.SetPictureNameValue` shows this with the example app's own
test input, which sends such an action. The example app's views are not
affected. They derive the text binding from the whole field, so their
binding actions name the base key path and do re-validate.

## Model

| member | source | states |
|---|---|---|
| ValidationRules.ValidateAll | Packages/AvivFormValidation/Sources/AvivFormValidation/ValidationRule/ValidationRule.swift:25-38 | the result is nil exactly when every rule passes; otherwise it is the message of a rule that fails while every earlier rule passes |
| ValidationRules.ValidateAllIsFirstFailure | Packages/AvivFormValidation/Sources/AvivFormValidation/ValidationRule.swift:25-34 | when rule `i` is the first failing rule, the list reports exactly rule `i`'s message |
| ValidationRules.SingleRule | Packages/AvivFormValidation/Sources/AvivFormValidation/ValidationRule/ValidationRule.swift:10-20 | a rule keeps the message and predicate it was built with: a one-rule list reports its message exactly when its predicate is false |
| ValidationRules.EmptyRulesAccept | Packages/AvivFormValidation/Sources/AvivFormValidation/ValidationRule/ValidationRule.swift:37 | an empty rule list accepts every value |
| ValidationRules.AppendAfterFailure | Packages/AvivFormValidation/Sources/AvivFormValidation/ValidationRule/ValidationRule.swift:31-35 | rules appended after a list that already fails never change the reported message |
| ValidationRules.AppendAfterSuccess | Packages/AvivFormValidation/Sources/AvivFormValidation/ValidationRule.swift:27-33 | after a passing list, the appended rules alone decide the outcome |
| RuleFactories.DecimalString | Packages/FormValidation/Sources/FormValidation/ValidationRule/ValidationRule+Rules.swift:17 | interpolating an integer gives a non-empty text that starts with '-' exactly when the integer is negative |
| RuleFactories.Digits | Packages/FormValidation/Sources/FormValidation/ValidationRule/ValidationRule+Rules.swift:17 | the rendering of a natural number is a non-empty string of decimal digits, starting with '0' only for zero itself, so it has no leading zeros |
| RuleFactories.DigitsRoundTrip | Packages/FormValidation/Sources/FormValidation/ValidationRule/ValidationRule+Rules.swift:17 | the decimal digits of a natural number read back as that number, so the interpolated threshold is exact |
| RuleFactories.NonEmpty | Packages/FormValidation/Sources/FormValidation/ValidationRule/ValidationRule+Rules.swift:4-9 | on strings and arrays: the message is "<Capitalized name> should not be empty", and a value passes exactly when it has an element |
| RuleFactories.NonEmptySet | Packages/FormValidation/Sources/FormValidation/ValidationRule/ValidationRule+Rules.swift:4-9 | on sets: the same message, and a set passes exactly when it is not empty |
| RuleFactories.NonEmptyMap | Packages/FormValidation/Sources/FormValidation/ValidationRule/ValidationRule+Rules.swift:4-9 | on dictionaries: the same message, and a dictionary passes exactly when it has an entry |
| RuleFactories.Length | Packages/FormValidation/Sources/FormValidation/ValidationRule/ValidationRule+Rules.swift:11-13 | the message is the given one, and a collection passes exactly when its count is at least `min` |
| RuleFactories.GreaterOrEqual | Packages/FormValidation/Sources/FormValidation/ValidationRule/ValidationRule+Rules.swift:15-20 | the message is "<Capitalized name> should be greater or equal to <threshold>", and a value passes exactly when it is at least the threshold |
| RuleFactories.IsEqualToField | Packages/FormValidation/Sources/FormValidation/ValidationRule/ValidationRule+Rules.swift:22-24 | the message is "<Capitalized name> should be <target>", and a value passes exactly when it equals the target |
| RuleFactories.IsEqual | Packages/FormValidation/Sources/FormValidation/ValidationRule/ValidationRule+Rules.swift:26-28 | the given message is kept unchanged, and a value passes exactly when it equals the target |
| RuleFactories.NonOptional | Packages/FormValidation/Sources/FormValidation/ValidationRule/ValidationRule+Rules.swift:30-32 | the given message is kept, and an optional passes exactly when it holds a value |
| ValidatableFields.Init | Packages/FormValidation/Sources/FormValidation/ValidatableField.swift:9-12 | the field stores the given value and the given error text |
| ValidatableFields.FromStringLiteral | Packages/FormValidation/Sources/FormValidation/ValidatableField.swift:22-24 | a string literal gives a field holding that string and no error |
| ValidatableFields.FromIntegerLiteral | Packages/FormValidation/Sources/FormValidation/ValidatableField.swift:28-30 | an integer literal gives a field holding that integer and no error |
| ValidatableFields.FromBooleanLiteral | Packages/FormValidation/Sources/FormValidation/ValidatableField.swift:40-42 | a boolean literal gives a field holding that boolean and no error |
| ValidatableFields.EqualityIsComponentwise | Packages/FormValidation/Sources/FormValidation/ValidatableField.swift:15 | two fields are equal exactly when both their values and their error texts are equal |
| ValidatableFields.AssignmentsAreIndependent | Packages/FormValidation/Sources/FormValidation/ValidatableField.swift:5-6 | assigning the error text keeps the value, and assigning the value keeps the error text |
| FormStates.ErrorInAfterWrite | Packages/FormValidation/Sources/FormValidation/FieldValidation.swift:32 | an error property reads back exactly what was last written to it, and a write to one error property leaves every other unchanged |
| FormStates.FieldIn | Packages/AvivFormValidation/Sources/AvivFormValidation/ValidatableField.swift:4-6 | the `ValidatableField` under a key is that key's value paired with that key's error text |
| FormStates.FormState.constructor | Packages/FormValidation/Sources/FormValidation/FieldValidation.swift:39 | the state starts with the given values and errors |
| FieldValidations.FieldValidation.ErrorsAfter | Packages/FormValidation/Sources/FormValidation/FieldValidation.swift:28-35 | one run writes only the error property; that property holds the outcome even when it held a stale error; every other error property is unchanged |
| FieldValidations.FieldValidation.Validate | Packages/FormValidation/Sources/FormValidation/FieldValidation.swift:38-41 | the errors become those of one run, the values are not written, and the result is true exactly when no rule failed |
| FieldValidations.Make | Packages/FormValidation/Sources/FormValidation/FieldValidation.swift:20-36 | keeps binding, field and error property; on every state the outcome is the rule list applied to the field's value |
| FieldValidations.ForField | Packages/FormValidation/Sources/FormValidation/FieldValidation.swift:60-71 | the binding is the field's own key path, and the outcome is the rules applied to that field |
| FieldValidations.ForValidatableField | Packages/FormValidation/Sources/FormValidation/FieldValidation.swift:86-96 | the binding is the field's base key path, the value read is its `value`, and the error property written is its `errorText` |
| FieldValidations.ValidatableFieldAfterValidation | Packages/FormValidation/Sources/FormValidation/FieldValidation.swift:90-95 | validating a `ValidatableField` keeps its value and sets its error text to the first failing message, or to nil |
| FieldValidations.ValidateIsIdempotent | Packages/FormValidation/Sources/FormValidation/FieldValidation.swift:28-35 | validating twice without a change gives the same errors as validating once |
| FormValidationReducers.ErrorsAfterAllKeepsOthers | Packages/AvivFormValidation/Sources/AvivFormValidation/FormValidationReducer.swift:119-124 | a full pass leaves every error property that no validation writes unchanged |
| FormValidationReducers.ErrorsAfterAllSetsEverySlot | Packages/AvivFormValidation/Sources/AvivFormValidation/FormValidationReducer.swift:120-123 | when the error properties are distinct, after a full pass each holds its own validation's outcome, so an earlier failure never skips a later field |
| FormValidationReducers.FirstMatch | Packages/AvivFormValidation/Sources/AvivFormValidation/FormValidationReducer.swift:129 | nil exactly when no binding is the path; otherwise the index of a validation bound to the path with no earlier one bound to it |
| FormValidationReducers.FirstValidation | Packages/AvivFormValidation/Sources/AvivFormValidation/FormValidationReducer.swift:126-130 | an action that is not a binding matches no validation; a binding action matches the first validation bound to its key path |
| FormValidationReducers.ChangeTouchesOneSlot | Packages/AvivFormValidation/Sources/AvivFormValidation/FormValidationReducer.swift:112-114 | a binding action changes no error property other than that of the validations bound to the path |
| FormValidationReducers.UnmatchedActionIsNoOp | Packages/AvivFormValidation/Sources/AvivFormValidation/FormValidationReducer.swift:112-116 | a binding to an unregistered path, or any other non-submit action, leaves the errors unchanged |
| FormValidationReducers.FormValidationReducer.Reduce | Packages/AvivFormValidation/Sources/AvivFormValidation/FormValidationReducer.swift:102-117 | submit runs every validation and sends the success action exactly when all passed; any other action runs at most the first matching validation and sends nothing |
| FormValidationReducers.FormValidationReducer.ValidateAllFields | Packages/AvivFormValidation/Sources/AvivFormValidation/FormValidationReducer.swift:119-124 | every validation runs in order; the result is true exactly when all of them passed |
| Scenarios.FirstFailingRuleWins | Packages/FormValidation/Tests/FormValidationTests/ValidationRuleTests.swift:20-38 | three passing rules give nil; in [pass, fail "1", fail "2"] the report is "Test validation 1", for every input |
| Scenarios.ReplayFieldValidationSuccess | Packages/FormValidation/Tests/FormValidationTests/FieldValidationTests.swift:6-25 | passing rules set the stale "Initial error" back to nil and return true |
| Scenarios.ReplayFieldValidationFailure | Packages/FormValidation/Tests/FormValidationTests/FieldValidationTests.swift:27-48 | the first failing rule's message replaces the stale error, and the result is false |
| Scenarios.CapitalizedIntField | Packages/FormValidation/Tests/FormValidationTests/FormValidationTests.swift:18 | "intField" capitalises to "Intfield" |
| Scenarios.CapitalizedStringField | Packages/FormValidation/Tests/FormValidationTests/FormValidationTests.swift:24 | "stringField" capitalises to "Stringfield" |
| Scenarios.CapitalizedUsername | FormExampleTests/UserProfileFormTests.swift:15 | "Username" capitalises to itself |
| Scenarios.CapitalizedPictureName | FormExampleTests/ImageSubmissionFormTests.swift:17 | "Picture's name" capitalises to "Picture's Name" |
| Scenarios.DecimalEighteen | Packages/FormValidation/Tests/FormValidationTests/FormValidationTests.swift:18 | 18 is interpolated as "18" |
| Scenarios.StringFieldMessages | Packages/FormValidation/Tests/FormValidationTests/FormValidationTests.swift:71-72 | the string field's messages are "Min length error" and "Stringfield should be Test1" |
| Scenarios.IntFieldMessage | Packages/FormValidation/Tests/FormValidationTests/FormValidationTests.swift:79 | the integer field's message is "Intfield should be greater or equal to 18" |
| Scenarios.TwoRules | Packages/AvivFormValidation/Sources/AvivFormValidation/ValidationRule/ValidationRule.swift:31-35 | a two-rule list reports the first rule's failure, else the second's, else nil |
| Scenarios.StringFieldRulesOn | Packages/FormValidation/Tests/FormValidationTests/FormValidationTests.swift:70-73 | for every text: shorter than 5 reports the length message; otherwise any text but "Test1" reports the equality message; "Test1" passes |
| Scenarios.IntFieldRulesOn | Packages/FormValidation/Tests/FormValidationTests/FormValidationTests.swift:78-80 | below 18 reports the integer message; 18 and above pass |
| Scenarios.SubmitTwo | Packages/AvivFormValidation/Sources/AvivFormValidation/FormValidationReducer.swift:119-124 | a submit over two validations writes both error properties; the form passes exactly when both fields pass |
| Scenarios.ChangeTwo | Packages/AvivFormValidation/Sources/AvivFormValidation/FormValidationReducer.swift:126-130 | a binding over two validations runs the first one bound to the path, else the second if bound, else nothing |
| Scenarios.TestRulesAsExpected | Packages/FormValidation/Tests/FormValidationTests/FormValidationTests.swift:66-82 | the rules the reducer test configures give the expected outcome on every input |
| Scenarios.TestReducerSubmit | Packages/FormValidation/Tests/FormValidationTests/FormValidationTests.swift:63-83 | a submit to the test reducer sets both errors from the current values, and passes exactly when both fields pass |
| Scenarios.TestReducerChangeString | Packages/FormValidation/Tests/FormValidationTests/FormValidationTests.swift:22-25 | a change of the string field re-validates it and keeps the integer field's error |
| Scenarios.TestReducerChangeInt | Packages/FormValidation/Tests/FormValidationTests/FormValidationTests.swift:32-35 | a change of the integer field re-validates it and keeps the string field's error |
| Scenarios.SubmitTestForm | Packages/FormValidation/Tests/FormValidationTests/FormValidationTests.swift:16-19 | after the submit action both errors hold the expected outcome, and the success action is sent exactly when both are nil |
| Scenarios.SetStringField | Packages/FormValidation/Tests/FormValidationTests/FormValidationTests.swift:22-30 | writing the string field re-validates it alone |
| Scenarios.SetIntField | Packages/FormValidation/Tests/FormValidationTests/FormValidationTests.swift:32-35 | writing the integer field re-validates it alone |
| Scenarios.ReplayUntouchedSubmit | Packages/FormValidation/Tests/FormValidationTests/FormValidationTests.swift:14-19 | only the error properties are written and the values stay; submitting the untouched form sets "Min length error" and "Intfield should be greater or equal to 18" and sends nothing |
| Scenarios.ReplayStringEdits | Packages/FormValidation/Tests/FormValidationTests/FormValidationTests.swift:21-30 | "something" sets "Stringfield should be Test1" and "Test1" clears it, while the integer field's error stays |
| Scenarios.ReplayIntEditThenSubmit | Packages/FormValidation/Tests/FormValidationTests/FormValidationTests.swift:32-40 | 21 clears the integer field's error, and the next submit sends the success action |
| Scenarios.ReplayReducerTest | Packages/FormValidation/Tests/FormValidationTests/FormValidationTests.swift:8-41 | the whole reducer test: the five error pairs and the five effects it asserts |
| ImageSubmission.NameMessage | FormExampleTests/ImageSubmissionFormTests.swift:17 | the picture name's message is "Picture's Name should not be empty" |
| ImageSubmission.NameRulesOn | FormExample/ShowCases/ImageSubmission/ImageSubmissionForm.swift:47-52 | the picture name passes exactly when it is not empty |
| ImageSubmission.PictureRulesOn | FormExample/ShowCases/ImageSubmission/ImageSubmissionForm.swift:53-59 | the picture passes exactly when one is selected |
| ImageSubmission.ImageRulesAsExpected | FormExample/ShowCases/ImageSubmission/ImageSubmissionForm.swift:43-61 | the form's rules give the expected outcome on every input |
| ImageSubmission.SubmitImageForm | FormExampleTests/ImageSubmissionFormTests.swift:16-19 | the submit writes the name's error text and the picture's error, and sends the success action exactly when both are nil |
| ImageSubmission.SetPictureNameValue | FormExampleTests/ImageSubmissionFormTests.swift:31-33 | writing `\.pictureName.value` re-validates nothing: every error is unchanged |
| ImageSubmission.SelectPicture | FormExampleTests/ImageSubmissionFormTests.swift:36-39 | selecting a picture re-validates the picture alone |
| ImageSubmission.ReplayImageUntouchedSubmit | FormExampleTests/ImageSubmissionFormTests.swift:10-20 | only the error properties are written and the values stay; submitting the initial form sets both messages and sends nothing |
| ImageSubmission.ReplayImageCorrectSubmit | FormExampleTests/ImageSubmissionFormTests.swift:23-46 | after naming and selecting a picture, the submit sends the success action |

## Left out

- The Composable Architecture machinery is not modelled. This covers `Effect`, `CaseKeyPath` and `toViewAction` (`FormValidationReducer.swift` lines 52-100 and 135-155). The model's actions are already the view actions `Submit`, `Binding(path)` and `Other`.
- `BindingReducer` is not part of this model. The scenarios write the new value into `values` before they hand the binding action to the reducer, as that reducer does.
- Swift key paths are replaced by keys and a `read` function. Values and errors live in separate maps, so a validation cannot read an error property as its value.
- FieldValidations.Make: the requirement that the field is in the state stands for key-path type safety.
- RuleFactories.NonEmpty: Foundation's `capitalized` is modelled for ASCII letters only, with words separated by space, tab, newline or carriage return. Full Unicode case mapping and locale rules are not modelled.
- RuleFactories.IsEqualToField: the interpolation `\(value)` of an arbitrary type is a `describe` parameter, not Swift's `description`.
- RuleFactories.GreaterOrEqual: only the `Int` instance is written, and the 64-bit width of `Int` is not modelled. The rule only compares, so no overflow can occur. Other `Comparable` types are not instantiated.
- RuleFactories.Length: counts `seq` elements. A Swift `String` counts grapheme clusters, and the model counts characters. The set and dictionary instances of `length(min:)` are not written.
- The `init(floatLiteral:)` initialiser of `ValidatableField` is left out, because `Double` literals are floating point.
- A configuration that binds two validations to the same key path is not rejected. The first one wins, as in the source.
- SwiftUI views, the asynchronous image loading of the example app and its alert state are not part of this model.
- The example app's user profile and no-validatable-field forms are not replayed. They use only the factories, field validations and reducer already covered.
- `Package.swift` and the build configuration are not part of this model.
