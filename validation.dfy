/**
 * The field constraints declared on the entities, and the list of
 * violations a validator reports for a field.
 *
 * Three kinds of constraint are used:
 * - NotBlank: the value is neither null nor the empty string (a string of
 *   spaces is not blank: no trimming is configured);
 * - MaxLength(max), written `Length(max: …)`: at most `max` characters; a
 *   null value is not checked;
 * - EmailFormat, written `Email`: null and the empty string are not checked;
 *   any other value must be a well-formed address. The address syntax is
 *   decided by the validator library, so it is a parameter `isEmail` here.
 */
module Validation {
  import opened Wrappers

  datatype Constraint = NotBlank | MaxLength(max: nat) | EmailFormat

  /** One field-level validation error: the property and the constraint it breaks. */
  datatype Violation = Violation(property: string, constraint: Constraint)

  /** The value is null or the empty string. */
  predicate Blank(v: Option<string>)
  {
    v.None? || v.value == ""
  }

  /** Whether the value `v` of a field meets constraint `k`. */
  predicate Satisfies(k: Constraint, v: Option<string>, isEmail: string -> bool)
  {
    match k
    case NotBlank => !Blank(v)
    case MaxLength(max) => v.None? || |v.value| <= max
    case EmailFormat => Blank(v) || isEmail(v.value)
  }

  /**
   * The violations reported for `property` holding `v` under the constraints
   * `ks`. Every constraint is checked; the check does not stop at the first
   * failure.
   */
  function CheckProperty(property: string, ks: seq<Constraint>, v: Option<string>, isEmail: string -> bool)
    : (r: seq<Violation>)
    ensures |r| <= |ks|
    ensures forall i :: 0 <= i < |r| ==>
      r[i].property == property && r[i].constraint in ks && !Satisfies(r[i].constraint, v, isEmail)
    ensures forall i :: 0 <= i < |ks| && !Satisfies(ks[i], v, isEmail) ==> Violation(property, ks[i]) in r
  {
    if ks == [] then []
    else
      (if Satisfies(ks[0], v, isEmail) then [] else [Violation(property, ks[0])])
      + CheckProperty(property, ks[1..], v, isEmail)
  }

  /** A property passes validation exactly when it meets each of its constraints. */
  lemma PassesIffSatisfiesAll(property: string, ks: seq<Constraint>, v: Option<string>, isEmail: string -> bool)
    ensures CheckProperty(property, ks, v, isEmail) == [] <==>
      forall i :: 0 <= i < |ks| ==> Satisfies(ks[i], v, isEmail)
  {
  }
}
