/**
 * The ready-made rules: non-empty, minimum length, greater-or-equal, equality
 * and presence of an optional value, with their message templates.
 *
 * Messages use Foundation's `capitalized` on the field name and string
 * interpolation of the threshold. Both are library calls; here `capitalized`
 * is the ASCII reading (first letter of every whitespace-separated word upper
 * case, every other letter lower case) and an integer is interpolated in
 * decimal with a leading '-' when negative.
 */
module RuleFactories {
  import opened Wrappers
  import opened ValidationRules

  predicate IsWhitespace(c: char)
  {
    c == ' ' || c == '\t' || c == '\n' || c == '\r'
  }

  function ToUpper(c: char): char
  {
    if 'a' <= c <= 'z' then (c as int - 32) as char else c
  }

  function ToLower(c: char): char
  {
    if 'A' <= c <= 'Z' then (c as int + 32) as char else c
  }

  /** Position `i` begins a word: it is the first character or follows whitespace. */
  predicate StartsWord(s: string, i: int)
    requires 0 <= i < |s|
  {
    i == 0 || IsWhitespace(s[i - 1])
  }

  /** Foundation's `String.capitalized`, ASCII letters only: a word's first
      character is upper-cased and every other character lower-cased. */
  function Capitalized(s: string): string
  {
    seq(|s|, i requires 0 <= i < |s| => if StartsWord(s, i) then ToUpper(s[i]) else ToLower(s[i]))
  }

  function DigitChar(d: nat): char
    requires d < 10
  {
    ('0' as int + d) as char
  }

  /** Decimal digits of `n`, most significant first, no leading zeros. */
  function Digits(n: nat): (r: string)
    ensures |r| > 0
    ensures forall i :: 0 <= i < |r| ==> '0' <= r[i] <= '9'
    ensures r[0] == '0' <==> n == 0
  {
    if n < 10 then [DigitChar(n)] else Digits(n / 10) + [DigitChar(n % 10)]
  }

  /** The number a string of decimal digits spells. */
  function DigitsValue(s: string): nat
    requires forall i :: 0 <= i < |s| ==> '0' <= s[i] <= '9'
  {
    if s == [] then 0 else DigitsValue(s[..|s| - 1]) * 10 + (s[|s| - 1] as int - '0' as int)
  }

  /** Reading the digits back gives the number: the rendering loses nothing. */
  lemma {:induction false} DigitsRoundTrip(n: nat)
    ensures DigitsValue(Digits(n)) == n
  {
    if n >= 10 {
      var d := Digits(n);
      assert d[..|d| - 1] == Digits(n / 10);
      DigitsRoundTrip(n / 10);
    }
  }

  /** Interpolation of an integer, `"\(n)"`. */
  function DecimalString(n: int): (r: string)
    ensures |r| > 0
    ensures n < 0 <==> r[0] == '-'
  {
    if n < 0 then "-" + Digits(-n) else Digits(n)
  }

  /** `nonEmpty(fieldName:)` on a string or an array: passes exactly when
      there is at least one element. */
  function NonEmpty<T(!new)>(fieldName: string): (r: ValidationRule<seq<T>>)
    ensures r.errorMessage == Capitalized(fieldName) + " should not be empty"
    ensures forall s :: r.Validate(s) <==> |s| > 0
  {
    ValidationRule(Capitalized(fieldName) + " should not be empty", (s: seq<T>) => |s| != 0)
  }

  /** `nonEmpty(fieldName:)` on a set. */
  function NonEmptySet<T(!new)>(fieldName: string): (r: ValidationRule<set<T>>)
    ensures r.errorMessage == Capitalized(fieldName) + " should not be empty"
    ensures forall s :: r.Validate(s) <==> |s| > 0
  {
    ValidationRule(Capitalized(fieldName) + " should not be empty", (s: set<T>) => s != {})
  }

  /** `nonEmpty(fieldName:)` on a dictionary. */
  function NonEmptyMap<K(!new), W(!new)>(fieldName: string): (r: ValidationRule<map<K, W>>)
    ensures r.errorMessage == Capitalized(fieldName) + " should not be empty"
    ensures forall m :: r.Validate(m) <==> |m| > 0
  {
    ValidationRule(Capitalized(fieldName) + " should not be empty", (m: map<K, W>) => m != map[])
  }

  /** `length(min:error:)`: passes exactly when the element count reaches
      `min`; a count equal to `min` passes. */
  function Length<T(!new)>(min: nat, error: string): (r: ValidationRule<seq<T>>)
    ensures r.errorMessage == error
    ensures forall s :: r.Validate(s) <==> |s| >= min
  {
    ValidationRule(error, (s: seq<T>) => |s| >= min)
  }

  /** `greaterOrEqual(to:fieldName:)` on integers: the boundary is inclusive. */
  function GreaterOrEqual(threshold: int, fieldName: string): (r: ValidationRule<int>)
    ensures r.errorMessage == Capitalized(fieldName) + " should be greater or equal to " + DecimalString(threshold)
    ensures forall v :: r.Validate(v) <==> threshold <= v
  {
    ValidationRule(Capitalized(fieldName) + " should be greater or equal to " + DecimalString(threshold),
                   (v: int) => v >= threshold)
  }

  /** `isEqual(to:errorMessage:)`: passes exactly on the target value and
      reports the given message unchanged. */
  function IsEqual<T(==,!new)>(target: T, errorMessage: string): (r: ValidationRule<T>)
    ensures r.errorMessage == errorMessage
    ensures forall v :: r.Validate(v) <==> v == target
  {
    ValidationRule(errorMessage, (v: T) => v == target)
  }

  /** `isEqual(to:fieldName:)`: the `errorMessage` form with the message
      "<FieldName> should be <target>"; `describe` is the interpolation of
      the target value. */
  function IsEqualToField<T(==,!new)>(target: T, fieldName: string, describe: T -> string): (r: ValidationRule<T>)
    ensures r.errorMessage == Capitalized(fieldName) + " should be " + describe(target)
    ensures forall v :: r.Validate(v) <==> v == target
  {
    IsEqual(target, Capitalized(fieldName) + " should be " + describe(target))
  }

  /** `nonOptional(_:)`: passes exactly when a value is present, whatever the
      value is. */
  function NonOptional<T(!new)>(errorMessage: string): (r: ValidationRule<Option<T>>)
    ensures r.errorMessage == errorMessage
    ensures forall o :: r.Validate(o) <==> o.Some?
  {
    ValidationRule(errorMessage, (o: Option<T>) => o.Some?)
  }
}
