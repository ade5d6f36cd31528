/**
 * The image submission form of the example application, replayed on the
 * model: a picture name held in a `ValidatableField` and validated as
 * non-empty, and an optional picture validated as present into its own error
 * property. A change written through the picture name's `value` key path is
 * not the validation's binding, so it does not re-validate the name.
 */
module ImageSubmission {
  import opened Wrappers
  import opened ValidationRules
  import opened RuleFactories
  import opened FormStates
  import opened FieldValidations
  import opened FormValidationReducers
  import opened Scenarios

  /** The form's properties: the picture name field (its value and its error
      text), the selected picture and the picture's error. */
  datatype ImageKey = PictureName | SelectedPicture | SelectedPictureError

  function NameRules(): seq<ValidationRule<string>>
  {
    [NonEmpty<char>("Picture's name")]
  }

  function PictureRules(): seq<ValidationRule<Option<string>>>
  {
    [NonOptional<string>("You need to select a picture to send")]
  }

  /** What the form's tests expect of the picture name. */
  function NameOutcome(name: string): Option<string>
  {
    if |name| > 0 then None else Some("Picture's Name should not be empty")
  }

  /** What the form's tests expect of the selected picture. */
  function PictureOutcome(item: Option<string>): Option<string>
  {
    if item.Some? then None else Some("You need to select a picture to send")
  }

  lemma NameMessage()
    ensures NameRules()[0].errorMessage == "Picture's Name should not be empty"
  {
    CapitalizedPictureName();
  }

  lemma NameRulesOn(name: string)
    ensures ValidateAll(NameRules(), name) == NameOutcome(name)
  {
    var rule := NameRules()[0];
    NameMessage();
    assert rule.Validate(name) <==> |name| > 0;
    SingleRule(rule, name);
  }

  lemma PictureRulesOn(item: Option<string>)
    ensures ValidateAll(PictureRules(), item) == PictureOutcome(item)
  {
    SingleRule(PictureRules()[0], item);
  }

  /** Rule lists that behave, on every input, as the form's tests expect. */
  ghost predicate NameRulesAsExpected(rules: seq<ValidationRule<string>>)
  {
    forall name :: ValidateAll(rules, name) == NameOutcome(name)
  }

  ghost predicate PictureRulesAsExpected(rules: seq<ValidationRule<Option<string>>>)
  {
    forall item :: ValidateAll(rules, item) == PictureOutcome(item)
  }

  /** The rules the form configures behave as its tests expect. */
  lemma ImageRulesAsExpected()
    ensures NameRulesAsExpected(NameRules())
    ensures PictureRulesAsExpected(PictureRules())
  {
    forall name: string ensures ValidateAll(NameRules(), name) == NameOutcome(name) {
      NameRulesOn(name);
    }
    forall item: Option<string> ensures ValidateAll(PictureRules(), item) == PictureOutcome(item) {
      PictureRulesOn(item);
    }
  }

  /** The form's reducer over the given rules for its two fields. */
  function ImageReducer(nameRules: seq<ValidationRule<string>>, pictureRules: seq<ValidationRule<Option<string>>>)
    : FormValidationReducer<ImageKey, FormValue, TestAction>
  {
    FormValidationReducer(FormValidationSucceed, [
      ForValidatableField(PictureName, AsText, nameRules),
      ForField(SelectedPicture, AsPicture, SelectedPictureError, pictureRules)
    ])
  }

  /** The submit button: the name's error text and the picture's error are
      both written. */
  method SubmitImageForm(state: FormState<ImageKey, FormValue>,
                         nameRules: seq<ValidationRule<string>>, pictureRules: seq<ValidationRule<Option<string>>>)
    returns (effect: Effect<TestAction>)
    requires NameRulesAsExpected(nameRules) && PictureRulesAsExpected(pictureRules)
    requires PictureName in state.values && SelectedPicture in state.values
    modifies state`errors
    ensures ErrorIn(state.errors, PictureName) == NameOutcome(AsText(state.values[PictureName]))
    ensures ErrorIn(state.errors, SelectedPictureError) == PictureOutcome(AsPicture(state.values[SelectedPicture]))
    ensures effect.Send? <==> ErrorIn(state.errors, PictureName).None? && ErrorIn(state.errors, SelectedPictureError).None?
    ensures effect.Send? ==> effect.action == FormValidationSucceed
  {
    var vs := ImageReducer(nameRules, pictureRules).validations;
    SubmitTwo(vs[0], vs[1], state.values, state.errors);
    effect := ImageReducer(nameRules, pictureRules).Reduce(state, Submit);
  }

  /** The host writes the picture name through its `value` key path: no
      validation is bound to that path, so no error changes. */
  method SetPictureNameValue(state: FormState<ImageKey, FormValue>, name: string,
                             nameRules: seq<ValidationRule<string>>, pictureRules: seq<ValidationRule<Option<string>>>)
    returns (effect: Effect<TestAction>)
    requires PictureName in state.values && SelectedPicture in state.values
    modifies state
    ensures state.values == old(state.values)[PictureName := Text(name)]
    ensures state.errors == old(state.errors)
    ensures effect.NoEffect?
  {
    state.values := state.values[PictureName := Text(name)];
    var vs := ImageReducer(nameRules, pictureRules).validations;
    ChangeTwo(vs[0], vs[1], FieldValue(PictureName), state.values, state.errors);
    effect := ImageReducer(nameRules, pictureRules).Reduce(state, Binding(FieldValue(PictureName)));
  }

  /** The host writes the selected picture: its validation runs alone. */
  method SelectPicture(state: FormState<ImageKey, FormValue>, item: Option<string>,
                       nameRules: seq<ValidationRule<string>>, pictureRules: seq<ValidationRule<Option<string>>>)
    returns (effect: Effect<TestAction>)
    requires PictureRulesAsExpected(pictureRules)
    requires PictureName in state.values && SelectedPicture in state.values
    modifies state
    ensures state.values == old(state.values)[SelectedPicture := Picture(item)]
    ensures ErrorIn(state.errors, SelectedPictureError) == PictureOutcome(item)
    ensures ErrorIn(state.errors, PictureName) == old(ErrorIn(state.errors, PictureName))
    ensures effect.NoEffect?
  {
    state.values := state.values[SelectedPicture := Picture(item)];
    var vs := ImageReducer(nameRules, pictureRules).validations;
    ChangeTwo(vs[0], vs[1], Field(SelectedPicture), state.values, state.errors);
    effect := ImageReducer(nameRules, pictureRules).Reduce(state, Binding(Field(SelectedPicture)));
  }

  /** Submitting the untouched form sets both errors and sends nothing. */
  method ReplayImageUntouchedSubmit(state: FormState<ImageKey, FormValue>,
                                    nameRules: seq<ValidationRule<string>>,
                                    pictureRules: seq<ValidationRule<Option<string>>>)
    returns (effect: Effect<TestAction>)
    requires NameRulesAsExpected(nameRules) && PictureRulesAsExpected(pictureRules)
    requires PictureName in state.values && SelectedPicture in state.values
    requires state.values[PictureName] == Text("") && state.values[SelectedPicture] == Picture(None)
    modifies state`errors
    ensures state.values == old(state.values)
    ensures ErrorIn(state.errors, PictureName) == Some("Picture's Name should not be empty")
    ensures ErrorIn(state.errors, SelectedPictureError) == Some("You need to select a picture to send")
    ensures effect == NoEffect
  {
    effect := SubmitImageForm(state, nameRules, pictureRules);
  }

  /** Naming the picture leaves the errors alone, selecting one clears the
      picture's error, and the submit then sends the success action. */
  method ReplayImageCorrectSubmit(state: FormState<ImageKey, FormValue>,
                                  nameRules: seq<ValidationRule<string>>,
                                  pictureRules: seq<ValidationRule<Option<string>>>)
    returns (effects: seq<Effect<TestAction>>)
    requires NameRulesAsExpected(nameRules) && PictureRulesAsExpected(pictureRules)
    requires PictureName in state.values && SelectedPicture in state.values
    modifies state
    ensures effects == [NoEffect, NoEffect, Send(FormValidationSucceed)]
  {
    var e1 := SetPictureNameValue(state, "Test picture", nameRules, pictureRules);
    var e2 := SelectPicture(state, Some("test picture"), nameRules, pictureRules);
    var e3 := SubmitImageForm(state, nameRules, pictureRules);
    effects := [e1, e2, e3];
  }
}
