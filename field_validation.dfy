/**
 * A field validation links one field of the form state to its rules and to
 * the error property that receives the outcome. Swift's key paths become
 * keys: `field` names the value read, `errorState` the error property
 * written, and `binding` the path that change events are matched against.
 */
module FieldValidations {
  import opened Wrappers
  import opened ValidationRules
  import opened FormStates

  /** A key path into the form state: a stored property `\.k`, or, when `k`
      holds a `ValidatableField`, its `\.k.value` or `\.k.errorText`. */
  datatype KeyPath<K> = Field(key: K) | FieldValue(key: K) | FieldErrorText(key: K)

  /** The type-erased validation: `evaluate` is the rule list applied to the
      value read from the field, as the private initialiser's closure does. */
  datatype FieldValidation<K(==), !V> =
    FieldValidation(binding: KeyPath<K>, field: K, errorState: K, evaluate: V -> Option<string>)
  {
    /** The message of the first failing rule on the current field value. */
    function Outcome(values: map<K, V>): Option<string>
      requires field in values
    {
      evaluate(values[field])
    }

    /** The error properties after one run: only `errorState` is written,
        and it is overwritten even when it held a stale error. */
    function ErrorsAfter(values: map<K, V>, errors: map<K, Option<string>>): (r: map<K, Option<string>>)
      requires field in values
      ensures r.Keys == errors.Keys + {errorState}
      ensures r[errorState] == Outcome(values)
      ensures forall k :: k in errors && k != errorState ==> r[k] == errors[k]
    {
      errors[errorState := Outcome(values)]
    }

    /** `validate(state:)`: writes the outcome into the error property and
        reports whether every rule passed. The field values are not written. */
    method Validate(state: FormState<K, V>) returns (ok: bool)
      requires field in state.values
      modifies state`errors
      ensures state.errors == ErrorsAfter(state.values, old(state.errors))
      ensures ok <==> Outcome(state.values).None?
    {
      var validationError := evaluate(state.values[field]);
      state.errors := state.errors[errorState := validationError];
      ok := validationError.None?;
    }
  }

  /** The private initialiser: `read` is the typed half of the value key path
      (it extracts the `T` the rules are written for). */
  function Make<K(==,!new), V(!new), T>(binding: KeyPath<K>, field: K, read: V -> T, errorState: K,
                                         rules: seq<ValidationRule<T>>): (fv: FieldValidation<K, V>)
    ensures fv.binding == binding && fv.field == field && fv.errorState == errorState
    ensures forall values :: field in values ==> fv.Outcome(values) == ValidateAll(rules, read(values[field]))
  {
    FieldValidation(binding, field, errorState, (v: V) => ValidateAll(rules, read(v)))
  }

  /** `init(field:errorState:rules:)`: the field's own key path is both the
      binding matched against changes and the source of the value. */
  function ForField<K(==,!new), V(!new), T>(field: K, read: V -> T, errorState: K,
                                             rules: seq<ValidationRule<T>>): (fv: FieldValidation<K, V>)
    ensures fv.binding == Field(field) && fv.field == field && fv.errorState == errorState
    ensures forall values :: field in values ==> fv.Outcome(values) == ValidateAll(rules, read(values[field]))
  {
    Make(Field(field), field, read, errorState, rules)
  }

  /** `init(field:rules:)` for a `ValidatableField`: the binding is the base
      key path, the value is its `value` and the error its `errorText`. */
  function ForValidatableField<K(==,!new), V(!new), T>(field: K, read: V -> T,
                                                        rules: seq<ValidationRule<T>>): (fv: FieldValidation<K, V>)
    ensures fv.binding == Field(field) && fv.field == field && fv.errorState == field
    ensures forall values :: field in values ==> fv.Outcome(values) == ValidateAll(rules, read(values[field]))
  {
    Make(Field(field), field, read, field, rules)
  }

  /** Validating a `ValidatableField` keeps its value and replaces its
      error text by the first failing rule's message, or clears it. */
  lemma ValidatableFieldAfterValidation<K(!new), V(!new), T>(k: K, read: V -> T, rules: seq<ValidationRule<T>>,
                                                             values: map<K, V>, errors: map<K, Option<string>>)
    requires k in values
    ensures var fv := ForValidatableField(k, read, rules);
            FieldIn(values, fv.ErrorsAfter(values, errors), k).value == values[k] &&
            FieldIn(values, fv.ErrorsAfter(values, errors), k).errorText == ValidateAll(rules, read(values[k]))
  {
  }

  /** Validating twice with no change in between gives the same errors as
      validating once: the outcome reads the value and never the errors. */
  lemma ValidateIsIdempotent<K, V>(fv: FieldValidation<K, V>, values: map<K, V>, errors: map<K, Option<string>>)
    requires fv.field in values
    ensures fv.ErrorsAfter(values, fv.ErrorsAfter(values, errors)) == fv.ErrorsAfter(values, errors)
  {
  }
}
