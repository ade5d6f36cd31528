/**
 * The orchestrator. On the submit action it runs every field validation, in
 * registration order and without stopping at a failure, and emits the
 * configured success action only when all of them passed. On a binding
 * action it re-validates the first validation whose binding is the changed
 * key path. Any other action is ignored.
 */
module FormValidationReducers {
  import opened Wrappers
  import opened FormStates
  import opened FieldValidations

  /** The view actions the reducer distinguishes. */
  datatype Action<K> = Submit | Binding(keyPath: KeyPath<K>) | Other

  /** What `reduce` returns: nothing, or one action to send. */
  datatype Effect<A> = NoEffect | Send(action: A)

  /** Every validation reads a field that the state holds. */
  predicate Binds<K, V>(vs: seq<FieldValidation<K, V>>, values: map<K, V>)
  {
    forall i :: 0 <= i < |vs| ==> vs[i].field in values
  }

  /** Every validation passes on the current values. */
  predicate AllPass<K, V>(vs: seq<FieldValidation<K, V>>, values: map<K, V>)
    requires Binds(vs, values)
  {
    forall i :: 0 <= i < |vs| ==> vs[i].Outcome(values).None?
  }

  /** No two validations write the same error property. */
  predicate DistinctErrorSlots<K, V>(vs: seq<FieldValidation<K, V>>)
  {
    forall i, j :: 0 <= i < j < |vs| ==> vs[i].errorState != vs[j].errorState
  }

  /** Some validation writes error property `k`. */
  predicate IsErrorSlot<K, V>(vs: seq<FieldValidation<K, V>>, k: K)
  {
    exists i :: 0 <= i < |vs| && vs[i].errorState == k
  }

  /** The error properties after running every validation in order. */
  function ErrorsAfterAll<K, V>(vs: seq<FieldValidation<K, V>>, values: map<K, V>,
                                errors: map<K, Option<string>>): map<K, Option<string>>
    requires Binds(vs, values)
  {
    if vs == [] then errors else ErrorsAfterAll(vs[1..], values, vs[0].ErrorsAfter(values, errors))
  }

  /** A full pass leaves every property no validation writes as it was. */
  lemma {:induction false} ErrorsAfterAllKeepsOthers<K, V>(vs: seq<FieldValidation<K, V>>, values: map<K, V>,
                                                            errors: map<K, Option<string>>, k: K)
    requires Binds(vs, values)
    requires !IsErrorSlot(vs, k)
    ensures k in ErrorsAfterAll(vs, values, errors) <==> k in errors
    ensures k in errors ==> ErrorsAfterAll(vs, values, errors)[k] == errors[k]
  {
    if vs != [] {
      assert !IsErrorSlot(vs[1..], k) by {
        forall j | 0 <= j < |vs[1..]| ensures vs[1..][j].errorState != k {
          assert vs[1..][j] == vs[j + 1];
        }
      }
      assert vs[0].errorState != k;
      ErrorsAfterAllKeepsOthers(vs[1..], values, vs[0].ErrorsAfter(values, errors), k);
    }
  }

  /** Submission is exhaustive: when the validations write distinct error
      properties, after a full pass each one holds its own validation's
      outcome, even when an earlier validation failed. */
  lemma {:induction false} ErrorsAfterAllSetsEverySlot<K, V>(vs: seq<FieldValidation<K, V>>, values: map<K, V>,
                                                              errors: map<K, Option<string>>, i: int)
    requires Binds(vs, values)
    requires DistinctErrorSlots(vs)
    requires 0 <= i < |vs|
    ensures vs[i].errorState in ErrorsAfterAll(vs, values, errors)
    ensures ErrorsAfterAll(vs, values, errors)[vs[i].errorState] == vs[i].Outcome(values)
  {
    var rest := vs[1..];
    var errors' := vs[0].ErrorsAfter(values, errors);
    if i == 0 {
      assert !IsErrorSlot(rest, vs[0].errorState) by {
        forall j | 0 <= j < |rest| ensures rest[j].errorState != vs[0].errorState {
          assert rest[j] == vs[j + 1];
        }
      }
      ErrorsAfterAllKeepsOthers(rest, values, errors', vs[0].errorState);
    } else {
      assert rest[i - 1] == vs[i];
      assert DistinctErrorSlots(rest) by {
        forall a, b | 0 <= a < b < |rest| ensures rest[a].errorState != rest[b].errorState {
          assert rest[a] == vs[a + 1] && rest[b] == vs[b + 1];
        }
      }
      ErrorsAfterAllSetsEverySlot(rest, values, errors', i - 1);
    }
  }

  /** The index of the first validation whose binding is `path`. */
  function FirstMatch<K, V>(vs: seq<FieldValidation<K, V>>, path: KeyPath<K>): (r: Option<nat>)
    ensures r.None? <==> forall j :: 0 <= j < |vs| ==> vs[j].binding != path
    ensures r.Some? ==> r.value < |vs| && vs[r.value].binding == path &&
                        forall j :: 0 <= j < r.value ==> vs[j].binding != path
  {
    if vs == [] then None
    else if vs[0].binding == path then Some(0)
    else
      match FirstMatch(vs[1..], path)
      case None =>
        assert forall j :: 1 <= j < |vs| ==> vs[j] == vs[1..][j - 1];
        None
      case Some(j) =>
        assert forall m :: 1 <= m <= j + 1 ==> vs[m] == vs[1..][m - 1];
        Some(j + 1)
  }

  /** `getFirstValidation(for:)`: only a binding action names a key path;
      any other action matches no validation. */
  function FirstValidation<K, V>(vs: seq<FieldValidation<K, V>>, action: Action<K>): (r: Option<nat>)
    ensures !action.Binding? ==> r.None?
    ensures action.Binding? ==> r == FirstMatch(vs, action.keyPath)
  {
    if action.Binding? then FirstMatch(vs, action.keyPath) else None
  }

  /** The error properties after a non-submit action: the first validation
      bound to the changed key path has run, or nothing has. */
  function ErrorsAfterChange<K, V>(vs: seq<FieldValidation<K, V>>, action: Action<K>, values: map<K, V>,
                                   errors: map<K, Option<string>>): map<K, Option<string>>
    requires Binds(vs, values)
  {
    match FirstValidation(vs, action)
    case None => errors
    case Some(i) => vs[i].ErrorsAfter(values, errors)
  }

  /** A change re-validates one field only: every error property other than
      that of the first validation bound to the changed path is kept. */
  lemma ChangeTouchesOneSlot<K, V>(vs: seq<FieldValidation<K, V>>, path: KeyPath<K>, values: map<K, V>,
                                   errors: map<K, Option<string>>, k: K)
    requires Binds(vs, values)
    requires forall i :: 0 <= i < |vs| && vs[i].binding == path ==> vs[i].errorState != k
    ensures ErrorIn(ErrorsAfterChange(vs, Binding(path), values, errors), k) == ErrorIn(errors, k)
  {
  }

  /** A binding action for a path no validation is bound to, and any action
      that is neither submit nor binding, change nothing. */
  lemma UnmatchedActionIsNoOp<K, V>(vs: seq<FieldValidation<K, V>>, action: Action<K>, values: map<K, V>,
                                    errors: map<K, Option<string>>)
    requires Binds(vs, values)
    requires action.Binding? ==> forall i :: 0 <= i < |vs| ==> vs[i].binding != action.keyPath
    ensures ErrorsAfterChange(vs, action, values, errors) == errors
  {
  }

  datatype FormValidationReducer<K(==), !V, A> =
    FormValidationReducer(onFormValidatedAction: A, validations: seq<FieldValidation<K, V>>)
  {
    /** `reduce(into:action:)`. */
    method Reduce(state: FormState<K, V>, action: Action<K>) returns (effect: Effect<A>)
      requires Binds(validations, state.values)
      modifies state`errors
      ensures action.Submit? ==> state.errors == ErrorsAfterAll(validations, state.values, old(state.errors))
      ensures action.Submit? ==> (effect.Send? <==> AllPass(validations, state.values))
      ensures !action.Submit? ==> state.errors == ErrorsAfterChange(validations, action, state.values, old(state.errors))
      ensures !action.Submit? ==> effect.NoEffect?
      ensures effect.Send? ==> effect.action == onFormValidatedAction
    {
      if action.Submit? {
        var didSucceed := ValidateAllFields(state);
        effect := if didSucceed then Send(onFormValidatedAction) else NoEffect;
        return;
      }
      var found := FirstValidation(validations, action);
      if found.Some? {
        var _ := validations[found.value].Validate(state);
      }
      effect := NoEffect;
    }

    /** `validateAllFields(state:)`: every validation runs, the validation
        itself before the accumulated result, so none is skipped. */
    method ValidateAllFields(state: FormState<K, V>) returns (didSucceed: bool)
      requires Binds(validations, state.values)
      modifies state`errors
      ensures state.errors == ErrorsAfterAll(validations, state.values, old(state.errors))
      ensures didSucceed <==> AllPass(validations, state.values)
    {
      didSucceed := true;
      var i := 0;
      while i < |validations|
        invariant 0 <= i <= |validations|
        invariant Binds(validations[i..], state.values)
        invariant ErrorsAfterAll(validations[i..], state.values, state.errors) ==
                  ErrorsAfterAll(validations, state.values, old(state.errors))
        invariant didSucceed <==> forall j :: 0 <= j < i ==> validations[j].Outcome(state.values).None?
      {
        var rest := validations[i..];
        assert rest[0] == validations[i] && rest[1..] == validations[i + 1..];
        var ok := validations[i].Validate(state);
        didSucceed := ok && didSucceed;
        i := i + 1;
      }
    }
  }
}
