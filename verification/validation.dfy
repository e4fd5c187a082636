/** Bean-validation constraints made explicit: each constraint that fails
    contributes one `Violation` to the details list of a 400 response. */
module Validation {
  import opened Wrappers

  /** The request fields that carry constraints, across all request bodies. */
  datatype Field =
    | FirstName | LastName | Cpf | Email | Password | ZipCode | Street
    | NumberOfInstallments | DayFirstInstallment

  /** The annotation a violation comes from. */
  datatype Rule = NotEmpty | CpfFormat | EmailFormat | Min(bound: int) | Max(bound: int) | Future

  /** One failed constraint: the field, the rule, and the annotation's custom
      message when it declares one. */
  datatype Violation = Violation(field: Field, rule: Rule, message: Option<string>)

  /** The message most `@NotEmpty` annotations declare. */
  const InvalidInput := "Invalid input. Try again"

  /** The violation `v` when `holds` is false, nothing otherwise. */
  function Require(holds: bool, v: Violation): (vs: seq<Violation>)
    ensures v in vs <==> !holds
    ensures |vs| <= 1 && (forall w :: w in vs ==> w == v)
  {
    if holds then [] else [v]
  }

  /** `@NotEmpty(message = msg)` on a string field. */
  function RequireNotEmpty(field: Field, value: string, msg: string): (vs: seq<Violation>)
    ensures Violation(field, NotEmpty, Some(msg)) in vs <==> value == ""
    ensures forall w :: w in vs ==> w == Violation(field, NotEmpty, Some(msg))
  {
    Require(value != "", Violation(field, NotEmpty, Some(msg)))
  }
}
