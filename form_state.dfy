/**
 * The form state the engine validates. Every stored property of the host's
 * state is named by a key: `values` holds the field values and `errors` the
 * optional error texts. A `ValidatableField` stored under key `k` is the pair
 * (`values[k]`, `errors[k]`); a plain field `k` with a separate error property
 * `e` keeps its value in `values[k]` and its error in `errors[e]`.
 */
module FormStates {
  import opened Wrappers
  import opened ValidatableFields

  /** The content of an error property; one never written reads as nil. */
  function ErrorIn<K>(errors: map<K, Option<string>>, k: K): (e: Option<string>)
    ensures k in errors ==> e == errors[k]
    ensures k !in errors ==> e.None?
  {
    if k in errors then errors[k] else None
  }

  /** An error property reads back what was last written to it, and a write
      to one property leaves every other as it was. */
  lemma ErrorInAfterWrite<K>(errors: map<K, Option<string>>, k: K, e: Option<string>, j: K)
    ensures ErrorIn(errors[k := e], k) == e
    ensures j != k ==> ErrorIn(errors[k := e], j) == ErrorIn(errors, j)
  {
  }

  /** The `ValidatableField` stored under `k`. */
  function FieldIn<K, V>(values: map<K, V>, errors: map<K, Option<string>>, k: K): (f: ValidatableField<V>)
    requires k in values
    ensures f.value == values[k] && f.errorText == ErrorIn(errors, k)
  {
    ValidatableField(values[k], ErrorIn(errors, k))
  }

  /** The host's mutable state, passed `inout` to the engine. */
  class FormState<K(==), V> {
    var values: map<K, V>
    var errors: map<K, Option<string>>

    constructor (values: map<K, V>, errors: map<K, Option<string>>)
      ensures this.values == values && this.errors == errors
    {
      this.values := values;
      this.errors := errors;
    }
  }
}
