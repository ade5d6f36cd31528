/** A form field's value bundled with the error text of its last validation. */
module ValidatableFields {
  import opened Wrappers

  datatype ValidatableField<V> = ValidatableField(value: V, errorText: Option<string>)

  /** `init(value:errorText:)`; callers that omit `errorText` pass `None`. */
  function Init<V>(value: V, errorText: Option<string>): (f: ValidatableField<V>)
    ensures f.value == value && f.errorText == errorText
  {
    ValidatableField(value, errorText)
  }

  /** `init(stringLiteral:)`: a field holding the literal and no error. */
  function FromStringLiteral(literal: string): (f: ValidatableField<string>)
    ensures f.value == literal && f.errorText.None?
  {
    Init(literal, None)
  }

  /** `init(integerLiteral:)`: a field holding the literal and no error. */
  function FromIntegerLiteral(literal: int): (f: ValidatableField<int>)
    ensures f.value == literal && f.errorText.None?
  {
    Init(literal, None)
  }

  /** `init(booleanLiteral:)`: a field holding the literal and no error. */
  function FromBooleanLiteral(literal: bool): (f: ValidatableField<bool>)
    ensures f.value == literal && f.errorText.None?
  {
    Init(literal, None)
  }

  /** The synthesised `Equatable` conformance compares both stored properties. */
  lemma EqualityIsComponentwise<V>(a: ValidatableField<V>, b: ValidatableField<V>)
    ensures a == b <==> a.value == b.value && a.errorText == b.errorText
  {
  }

  /** `value` and `errorText` are independent stored properties: assigning
      one leaves the other as it was. */
  lemma AssignmentsAreIndependent<V>(f: ValidatableField<V>, v: V, e: Option<string>)
    ensures f.(errorText := e).value == f.value
    ensures f.(value := v).errorText == f.errorText
  {
  }
}
