/**
 * A validation rule is an error message paired with a predicate over a value;
 * a list of rules is evaluated in order and reports the message of the first
 * rule that fails.
 */
module ValidationRules {
  import opened Wrappers

  /** The datatype constructor plays the role of `init(error:validation:)`:
      it stores the message and the predicate unchanged. */
  datatype ValidationRule<!V> = ValidationRule(errorMessage: string, validation: V -> bool)
  {
    /** Runs the stored predicate on `value`. */
    predicate Validate(value: V)
    {
      validation(value)
    }
  }

  /** `rules[i]` is the first rule of the list that fails on `value`. */
  ghost predicate IsFirstFailure<V>(rules: seq<ValidationRule<V>>, value: V, i: int)
  {
    0 <= i < |rules| && !rules[i].Validate(value) &&
    forall j :: 0 <= j < i ==> rules[j].Validate(value)
  }

  /** Evaluates the rules in list order and returns the message of the first
      one that fails, or `None` when every rule passes; rules after the first
      failure are not consulted. */
  function ValidateAll<V>(rules: seq<ValidationRule<V>>, value: V): (r: Option<string>)
    ensures r.None? <==> forall i :: 0 <= i < |rules| ==> rules[i].Validate(value)
    ensures r.Some? ==> exists i :: IsFirstFailure(rules, value, i) && r.value == rules[i].errorMessage
  {
    if |rules| == 0 then None
    else if !rules[0].Validate(value) then
      assert IsFirstFailure(rules, value, 0);
      Some(rules[0].errorMessage)
    else
      var rest := ValidateAll(rules[1..], value);
      assert rest.Some? ==> exists i :: IsFirstFailure(rules, value, i) && rest.value == rules[i].errorMessage by {
        if rest.Some? {
          var i :| IsFirstFailure(rules[1..], value, i) && rest.value == rules[1..][i].errorMessage;
          assert IsFirstFailure(rules, value, i + 1);
        }
      }
      assert rest.None? ==> forall i :: 0 <= i < |rules| ==> rules[i].Validate(value) by {
        if rest.None? {
          forall i | 0 <= i < |rules| ensures rules[i].Validate(value) {
            if i > 0 { assert rules[1..][i - 1] == rules[i]; }
          }
        }
      }
      rest
  }

  /** The first failure is unique, so the message reported is that of the one
      rule that fails while every rule before it passes. */
  lemma {:induction false} ValidateAllIsFirstFailure<V>(rules: seq<ValidationRule<V>>, value: V, i: int)
    requires IsFirstFailure(rules, value, i)
    ensures ValidateAll(rules, value) == Some(rules[i].errorMessage)
  {
    if i > 0 {
      assert IsFirstFailure(rules[1..], value, i - 1);
      ValidateAllIsFirstFailure(rules[1..], value, i - 1);
    }
  }

  /** A one-rule list fails exactly when that rule's predicate fails, with
      that rule's message. */
  lemma SingleRule<V>(rule: ValidationRule<V>, value: V)
    ensures ValidateAll([rule], value) == if rule.validation(value) then None else Some(rule.errorMessage)
  {
  }

  /** An empty rule list accepts every value. */
  lemma EmptyRulesAccept<V>(value: V)
    ensures ValidateAll<V>([], value) == None
  {
  }

  /** Rules appended after a list that already fails on `value` are never
      consulted: the reported message does not change. */
  lemma {:induction false} AppendAfterFailure<V>(rules: seq<ValidationRule<V>>, more: seq<ValidationRule<V>>, value: V)
    requires ValidateAll(rules, value).Some?
    ensures ValidateAll(rules + more, value) == ValidateAll(rules, value)
  {
    var i :| IsFirstFailure(rules, value, i) && ValidateAll(rules, value).value == rules[i].errorMessage;
    assert IsFirstFailure(rules + more, value, i) by {
      assert forall j :: 0 <= j <= i ==> (rules + more)[j] == rules[j];
    }
    ValidateAllIsFirstFailure(rules + more, value, i);
  }

  /** Rules appended after a list that passes decide the outcome alone. */
  lemma {:induction false} AppendAfterSuccess<V>(rules: seq<ValidationRule<V>>, more: seq<ValidationRule<V>>, value: V)
    requires ValidateAll(rules, value).None?
    ensures ValidateAll(rules + more, value) == ValidateAll(more, value)
  {
    if |rules| > 0 {
      assert (rules + more)[1..] == rules[1..] + more;
      assert rules[0].Validate(value);
      AppendAfterSuccess(rules[1..], more, value);
    } else {
      assert rules + more == more;
    }
  }
}
