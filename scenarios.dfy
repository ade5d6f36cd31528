/**
 * The behaviour the repository's tests assert, replayed on the model: the
 * rule-list order, clearing of stale errors, the exact messages, exhaustive
 * submission and single-field re-validation.
 */
module Scenarios {
  import opened Wrappers
  import opened ValidationRules
  import opened RuleFactories
  import opened FormStates
  import opened FieldValidations
  import opened FormValidationReducers

  function AlwaysTrue(): ValidationRule<string>
  {
    ValidationRule("", (s: string) => true)
  }

  function AlwaysFalse(id: string): ValidationRule<string>
  {
    ValidationRule("Test validation " + id, (s: string) => false)
  }

  /** Order wins: the first failing rule's message is reported, not a later one's. */
  lemma FirstFailingRuleWins(value: string)
    ensures ValidateAll([AlwaysTrue(), AlwaysFalse("1"), AlwaysFalse("2")], value) == Some("Test validation 1")
    ensures ValidateAll([AlwaysTrue(), AlwaysTrue(), AlwaysTrue()], value) == None
  {
    assert AlwaysFalse("1").errorMessage == "Test validation 1";
    assert IsFirstFailure([AlwaysTrue(), AlwaysFalse("1"), AlwaysFalse("2")], value, 1);
    ValidateAllIsFirstFailure([AlwaysTrue(), AlwaysFalse("1"), AlwaysFalse("2")], value, 1);
  }

  /** The keys of the field validation tests' state: a string and its error. */
  datatype ValueKey = Value | ValueError

  /** A passing validation sets a stale error back to nil and reports success. */
  method ReplayFieldValidationSuccess(state: FormState<ValueKey, string>) returns (ok: bool)
    requires Value in state.values
    requires ErrorIn(state.errors, ValueError) == Some("Initial error")
    modifies state`errors
    ensures ok
    ensures ErrorIn(state.errors, ValueError) == None
  {
    var fv := ForField(Value, (s: string) => s, ValueError, [AlwaysTrue(), AlwaysTrue()]);
    TwoRules(AlwaysTrue(), AlwaysTrue(), state.values[Value]);
    ok := fv.Validate(state);
  }

  /** A failing validation writes the first failing rule's message and
      reports failure. */
  method ReplayFieldValidationFailure(state: FormState<ValueKey, string>) returns (ok: bool)
    requires Value in state.values
    requires ErrorIn(state.errors, ValueError) == Some("Initial error")
    modifies state`errors
    ensures !ok
    ensures ErrorIn(state.errors, ValueError) == Some("Test validation 1")
  {
    var fv := ForField(Value, (s: string) => s, ValueError, [AlwaysTrue(), AlwaysFalse("1"), AlwaysFalse("2")]);
    FirstFailingRuleWins(state.values[Value]);
    ok := fv.Validate(state);
  }

  /** The field names of the tests, as `capitalized` renders them. */
  lemma CapitalizedIntField()
    ensures Capitalized("intField") == "Intfield"
  {
  }

  lemma CapitalizedStringField()
    ensures Capitalized("stringField") == "Stringfield"
  {
  }

  lemma CapitalizedUsername()
    ensures Capitalized("Username") == "Username"
  {
  }

  lemma CapitalizedPictureName()
    ensures Capitalized("Picture's name") == "Picture's Name"
  {
  }

  lemma DecimalEighteen()
    ensures DecimalString(18) == "18"
  {
  }

  /** A host state's stored values, one datatype for the several Swift types. */
  datatype FormValue = Text(text: string) | Number(number: int) | Flag(flag: bool) | Picture(item: Option<string>)

  function AsText(v: FormValue): string
  {
    if v.Text? then v.text else ""
  }

  function AsNumber(v: FormValue): int
  {
    if v.Number? then v.number else 0
  }

  function AsFlag(v: FormValue): bool
  {
    v.Flag? && v.flag
  }

  function AsPicture(v: FormValue): Option<string>
  {
    if v.Picture? then v.item else None
  }

  datatype TestAction = FormValidationSucceed

  datatype TestKey = StringField | IntField | StringFieldError | IntFieldError

  function StringFieldRules(): seq<ValidationRule<string>>
  {
    [Length(5, "Min length error"), IsEqualToField("Test1", "stringField", (s: string) => s)]
  }

  function IntFieldRules(): seq<ValidationRule<int>>
  {
    [GreaterOrEqual(18, "intField")]
  }

  lemma StringFieldMessages()
    ensures StringFieldRules()[0].errorMessage == "Min length error"
    ensures StringFieldRules()[1].errorMessage == "Stringfield should be Test1"
  {
    CapitalizedStringField();
  }

  lemma IntFieldMessage()
    ensures IntFieldRules()[0].errorMessage == "Intfield should be greater or equal to 18"
  {
    CapitalizedIntField();
    DecimalEighteen();
  }

  /** A two-rule list, spelt out. */
  lemma TwoRules<V>(first: ValidationRule<V>, second: ValidationRule<V>, value: V)
    ensures ValidateAll([first, second], value) ==
      if !first.Validate(value) then Some(first.errorMessage)
      else if !second.Validate(value) then Some(second.errorMessage)
      else None
  {
    assert [first, second][1..] == [second];
  }

  /** What the reducer test expects of the string field: the length message
      for a short text, the equality message for any other text but "Test1". */
  function StringFieldOutcome(text: string): Option<string>
  {
    if |text| < 5 then Some("Min length error")
    else if text != "Test1" then Some("Stringfield should be Test1")
    else None
  }

  /** What the reducer test expects of the integer field, with the inclusive
      boundary 18. */
  function IntFieldOutcome(n: int): Option<string>
  {
    if n < 18 then Some("Intfield should be greater or equal to 18") else None
  }

  /** The string field's rules meet the expectation: the length rule is
      consulted first. */
  lemma StringFieldRulesOn(text: string)
    ensures ValidateAll(StringFieldRules(), text) == StringFieldOutcome(text)
  {
    var rules := StringFieldRules();
    StringFieldMessages();
    TwoRules(rules[0], rules[1], text);
  }

  /** The integer field's rule meets the expectation. */
  lemma IntFieldRulesOn(n: int)
    ensures ValidateAll(IntFieldRules(), n) == IntFieldOutcome(n)
  {
    IntFieldMessage();
    if n < 18 {
      ValidateAllIsFirstFailure(IntFieldRules(), n, 0);
    }
  }

  /** A submit over two validations, spelt out: both error properties are
      written, and the form passes only when both fields do. */
  lemma SubmitTwo<K, V>(a: FieldValidation<K, V>, b: FieldValidation<K, V>,
                        values: map<K, V>, errors: map<K, Option<string>>)
    requires a.field in values && b.field in values
    ensures Binds([a, b], values)
    ensures ErrorsAfterAll([a, b], values, errors) ==
            errors[a.errorState := a.Outcome(values)][b.errorState := b.Outcome(values)]
    ensures AllPass([a, b], values) <==> a.Outcome(values).None? && b.Outcome(values).None?
  {
    var afterA := a.ErrorsAfter(values, errors);
    assert [a, b][1..] == [b];
    assert ErrorsAfterAll([a, b], values, errors) == ErrorsAfterAll([b], values, afterA);
    assert [b][1..] == [];
    assert ErrorsAfterAll([b], values, afterA) == ErrorsAfterAll([], values, b.ErrorsAfter(values, afterA));
  }

  /** A binding action over two validations, spelt out: the first one bound
      to the path runs. */
  lemma ChangeTwo<K, V>(a: FieldValidation<K, V>, b: FieldValidation<K, V>, path: KeyPath<K>,
                        values: map<K, V>, errors: map<K, Option<string>>)
    requires a.field in values && b.field in values
    ensures Binds([a, b], values)
    ensures ErrorsAfterChange([a, b], Binding(path), values, errors) ==
            if a.binding == path then errors[a.errorState := a.Outcome(values)]
            else if b.binding == path then errors[b.errorState := b.Outcome(values)]
            else errors
  {
    assert [a, b][1..] == [b];
    if a.binding != path {
      assert FirstMatch([a, b], path) == if b.binding == path then Some(1) else None;
    }
  }

  /** Rule lists that behave, on every input, as the reducer test expects. */
  ghost predicate StringRulesAsExpected(rules: seq<ValidationRule<string>>)
  {
    forall text :: ValidateAll(rules, text) == StringFieldOutcome(text)
  }

  ghost predicate IntRulesAsExpected(rules: seq<ValidationRule<int>>)
  {
    forall n :: ValidateAll(rules, n) == IntFieldOutcome(n)
  }

  /** The rules the reducer test configures behave as it expects. */
  lemma TestRulesAsExpected()
    ensures StringRulesAsExpected(StringFieldRules())
    ensures IntRulesAsExpected(IntFieldRules())
  {
    forall text: string ensures ValidateAll(StringFieldRules(), text) == StringFieldOutcome(text) {
      StringFieldRulesOn(text);
    }
    forall n: int ensures ValidateAll(IntFieldRules(), n) == IntFieldOutcome(n) {
      IntFieldRulesOn(n);
    }
  }

  /** The reducer of the package's own reducer test, over the given rules
      for the string and the integer field. */
  function TestReducer(stringRules: seq<ValidationRule<string>>, intRules: seq<ValidationRule<int>>)
    : FormValidationReducer<TestKey, FormValue, TestAction>
  {
    FormValidationReducer(FormValidationSucceed, [
      ForField(StringField, AsText, StringFieldError, stringRules),
      ForField(IntField, AsNumber, IntFieldError, intRules)
    ])
  }

  /** A submit writes both error properties from the current values. */
  lemma TestReducerSubmit(stringRules: seq<ValidationRule<string>>, intRules: seq<ValidationRule<int>>,
                          values: map<TestKey, FormValue>, errors: map<TestKey, Option<string>>)
    requires StringField in values && IntField in values
    ensures Binds(TestReducer(stringRules, intRules).validations, values)
    ensures var r := ErrorsAfterAll(TestReducer(stringRules, intRules).validations, values, errors);
            ErrorIn(r, StringFieldError) == ValidateAll(stringRules, AsText(values[StringField])) &&
            ErrorIn(r, IntFieldError) == ValidateAll(intRules, AsNumber(values[IntField]))
    ensures AllPass(TestReducer(stringRules, intRules).validations, values) <==>
            ValidateAll(stringRules, AsText(values[StringField])).None? &&
            ValidateAll(intRules, AsNumber(values[IntField])).None?
  {
    var vs := TestReducer(stringRules, intRules).validations;
    SubmitTwo(vs[0], vs[1], values, errors);
  }

  /** A change of the string field re-validates it and keeps the other error. */
  lemma TestReducerChangeString(stringRules: seq<ValidationRule<string>>, intRules: seq<ValidationRule<int>>,
                                values: map<TestKey, FormValue>, errors: map<TestKey, Option<string>>)
    requires StringField in values && IntField in values
    ensures Binds(TestReducer(stringRules, intRules).validations, values)
    ensures var r := ErrorsAfterChange(TestReducer(stringRules, intRules).validations,
                                       Binding(Field(StringField)), values, errors);
            ErrorIn(r, StringFieldError) == ValidateAll(stringRules, AsText(values[StringField])) &&
            ErrorIn(r, IntFieldError) == ErrorIn(errors, IntFieldError)
  {
    var vs := TestReducer(stringRules, intRules).validations;
    ChangeTwo(vs[0], vs[1], Field(StringField), values, errors);
  }

  /** A change of the integer field re-validates it and keeps the other error. */
  lemma TestReducerChangeInt(stringRules: seq<ValidationRule<string>>, intRules: seq<ValidationRule<int>>,
                             values: map<TestKey, FormValue>, errors: map<TestKey, Option<string>>)
    requires StringField in values && IntField in values
    ensures Binds(TestReducer(stringRules, intRules).validations, values)
    ensures var r := ErrorsAfterChange(TestReducer(stringRules, intRules).validations,
                                       Binding(Field(IntField)), values, errors);
            ErrorIn(r, IntFieldError) == ValidateAll(intRules, AsNumber(values[IntField])) &&
            ErrorIn(r, StringFieldError) == ErrorIn(errors, StringFieldError)
  {
    var vs := TestReducer(stringRules, intRules).validations;
    ChangeTwo(vs[0], vs[1], Field(IntField), values, errors);
  }

  /** The submit button of the test form: both fields are validated. */
  method SubmitTestForm(state: FormState<TestKey, FormValue>,
                        stringRules: seq<ValidationRule<string>>, intRules: seq<ValidationRule<int>>)
    returns (effect: Effect<TestAction>)
    requires StringRulesAsExpected(stringRules) && IntRulesAsExpected(intRules)
    requires StringField in state.values && IntField in state.values
    modifies state`errors
    ensures ErrorIn(state.errors, StringFieldError) == StringFieldOutcome(AsText(state.values[StringField]))
    ensures ErrorIn(state.errors, IntFieldError) == IntFieldOutcome(AsNumber(state.values[IntField]))
    ensures effect.Send? <==> ErrorIn(state.errors, StringFieldError).None? && ErrorIn(state.errors, IntFieldError).None?
    ensures effect.Send? ==> effect.action == FormValidationSucceed
  {
    TestReducerSubmit(stringRules, intRules, state.values, state.errors);
    effect := TestReducer(stringRules, intRules).Reduce(state, Submit);
  }

  /** The host's binding sets the string field, then the reducer sees the change. */
  method SetStringField(state: FormState<TestKey, FormValue>, text: string,
                        stringRules: seq<ValidationRule<string>>, intRules: seq<ValidationRule<int>>)
    returns (effect: Effect<TestAction>)
    requires StringRulesAsExpected(stringRules)
    requires StringField in state.values && IntField in state.values
    modifies state
    ensures state.values == old(state.values)[StringField := Text(text)]
    ensures ErrorIn(state.errors, StringFieldError) == StringFieldOutcome(text)
    ensures ErrorIn(state.errors, IntFieldError) == old(ErrorIn(state.errors, IntFieldError))
    ensures effect.NoEffect?
  {
    state.values := state.values[StringField := Text(text)];
    TestReducerChangeString(stringRules, intRules, state.values, state.errors);
    effect := TestReducer(stringRules, intRules).Reduce(state, Binding(Field(StringField)));
  }

  /** The host's binding sets the integer field, then the reducer sees the change. */
  method SetIntField(state: FormState<TestKey, FormValue>, n: int,
                     stringRules: seq<ValidationRule<string>>, intRules: seq<ValidationRule<int>>)
    returns (effect: Effect<TestAction>)
    requires IntRulesAsExpected(intRules)
    requires StringField in state.values && IntField in state.values
    modifies state
    ensures state.values == old(state.values)[IntField := Number(n)]
    ensures ErrorIn(state.errors, IntFieldError) == IntFieldOutcome(n)
    ensures ErrorIn(state.errors, StringFieldError) == old(ErrorIn(state.errors, StringFieldError))
    ensures effect.NoEffect?
  {
    state.values := state.values[IntField := Number(n)];
    TestReducerChangeInt(stringRules, intRules, state.values, state.errors);
    effect := TestReducer(stringRules, intRules).Reduce(state, Binding(Field(IntField)));
  }

  /** Submitting the untouched form fails on both fields and sets both
      errors: the failure of the first field does not stop the second. */
  method ReplayUntouchedSubmit(state: FormState<TestKey, FormValue>,
                               stringRules: seq<ValidationRule<string>>, intRules: seq<ValidationRule<int>>)
    returns (errors: (Option<string>, Option<string>), effect: Effect<TestAction>)
    requires StringRulesAsExpected(stringRules) && IntRulesAsExpected(intRules)
    requires StringField in state.values && IntField in state.values
    requires state.values[StringField] == Text("") && state.values[IntField] == Number(0)
    modifies state`errors
    ensures state.values == old(state.values)
    ensures errors == (ErrorIn(state.errors, StringFieldError), ErrorIn(state.errors, IntFieldError))
    ensures errors == (Some("Min length error"), Some("Intfield should be greater or equal to 18"))
    ensures effect == NoEffect
  {
    effect := SubmitTestForm(state, stringRules, intRules);
    errors := (ErrorIn(state.errors, StringFieldError), ErrorIn(state.errors, IntFieldError));
  }

  /** Editing the string field re-validates it alone: first to the second
      rule's message, then to no error; the integer field's error stays. */
  method ReplayStringEdits(state: FormState<TestKey, FormValue>,
                           stringRules: seq<ValidationRule<string>>, intRules: seq<ValidationRule<int>>)
    returns (errors: seq<(Option<string>, Option<string>)>, effects: seq<Effect<TestAction>>)
    requires StringRulesAsExpected(stringRules)
    requires StringField in state.values && IntField in state.values
    requires ErrorIn(state.errors, IntFieldError) == Some("Intfield should be greater or equal to 18")
    modifies state
    ensures StringField in state.values && IntField in state.values
    ensures AsText(state.values[StringField]) == "Test1"
    ensures errors == [
      (Some("Stringfield should be Test1"), Some("Intfield should be greater or equal to 18")),
      (None, Some("Intfield should be greater or equal to 18"))]
    ensures errors[1] == (ErrorIn(state.errors, StringFieldError), ErrorIn(state.errors, IntFieldError))
    ensures effects == [NoEffect, NoEffect]
  {
    var e2 := SetStringField(state, "something", stringRules, intRules);
    var p2 := (ErrorIn(state.errors, StringFieldError), ErrorIn(state.errors, IntFieldError));

    var e3 := SetStringField(state, "Test1", stringRules, intRules);
    var p3 := (ErrorIn(state.errors, StringFieldError), ErrorIn(state.errors, IntFieldError));
    errors := [p2, p3];
    effects := [e2, e3];
  }

  /** Once the integer field is raised to 21 both fields are valid, and
      submitting sends the success action. */
  method ReplayIntEditThenSubmit(state: FormState<TestKey, FormValue>,
                                 stringRules: seq<ValidationRule<string>>, intRules: seq<ValidationRule<int>>)
    returns (errors: seq<(Option<string>, Option<string>)>, effects: seq<Effect<TestAction>>)
    requires StringRulesAsExpected(stringRules) && IntRulesAsExpected(intRules)
    requires StringField in state.values && IntField in state.values
    requires AsText(state.values[StringField]) == "Test1"
    requires ErrorIn(state.errors, StringFieldError) == None
    modifies state
    ensures errors == [(None, None), (None, None)]
    ensures effects == [NoEffect, Send(FormValidationSucceed)]
  {
    var e4 := SetIntField(state, 21, stringRules, intRules);
    var p4 := (ErrorIn(state.errors, StringFieldError), ErrorIn(state.errors, IntFieldError));

    var e5 := SubmitTestForm(state, stringRules, intRules);
    var p5 := (ErrorIn(state.errors, StringFieldError), ErrorIn(state.errors, IntFieldError));
    errors := [p4, p5];
    effects := [e4, e5];
  }

  /** The package's reducer test from start to end, for any rules that
      behave as the test's own (`TestRulesAsExpected`). */
  method ReplayReducerTest(state: FormState<TestKey, FormValue>,
                           stringRules: seq<ValidationRule<string>>, intRules: seq<ValidationRule<int>>)
    returns (errors: seq<(Option<string>, Option<string>)>, effects: seq<Effect<TestAction>>)
    requires StringRulesAsExpected(stringRules) && IntRulesAsExpected(intRules)
    requires state.values == map[StringField := Text(""), IntField := Number(0)]
    modifies state
    ensures errors == [
      (Some("Min length error"), Some("Intfield should be greater or equal to 18")),
      (Some("Stringfield should be Test1"), Some("Intfield should be greater or equal to 18")),
      (None, Some("Intfield should be greater or equal to 18")),
      (None, None),
      (None, None)]
    ensures effects == [NoEffect, NoEffect, NoEffect, NoEffect, Send(FormValidationSucceed)]
  {
    var first, e1 := ReplayUntouchedSubmit(state, stringRules, intRules);
    var edits, editEffects := ReplayStringEdits(state, stringRules, intRules);
    var last, lastEffects := ReplayIntEditThenSubmit(state, stringRules, intRules);
    errors := [first] + edits + last;
    effects := [e1] + editEffects + lastEffects;
  }
}
