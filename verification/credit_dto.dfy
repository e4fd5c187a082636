/** The request body of credit creation, its constraints and its mapping
    onto a new credit entity that refers to its owner by id only. */
module CreditDtos {
  import opened Wrappers
  import opened Entities
  import opened Validation

  datatype CreditDto = CreditDto(
    creditValue: Money,
    numberOfInstallments: int,
    dayFirstInstallment: EpochDay,
    customerId: int)

  const MinInstallments := 1
  const MaxInstallments := 48
  const NotFutureDate := "It must be a future date. Try again"

  /** The annotation constraints, with `today` the validator's clock:
      `@Min(1) @Max(48)` on the installment count and `@Future` on the first
      installment date. The three-month window of the credit service is not
      one of them. */
  predicate IsValid(dto: CreditDto, today: EpochDay)
  {
    && MinInstallments <= dto.numberOfInstallments <= MaxInstallments
    && dto.dayFirstInstallment > today
  }

  /** True when `v` is one of the violations the DTO's annotations report;
      `@Min` and `@Max` declare no custom message. */
  predicate Broken(dto: CreditDto, today: EpochDay, v: Violation)
  {
    || (v == Violation(NumberOfInstallments, Min(MinInstallments), None)
        && dto.numberOfInstallments < MinInstallments)
    || (v == Violation(NumberOfInstallments, Max(MaxInstallments), None)
        && dto.numberOfInstallments > MaxInstallments)
    || (v == Violation(DayFirstInstallment, Future, Some(NotFutureDate))
        && dto.dayFirstInstallment <= today)
  }

  /** The details list of a refused request: every broken constraint and nothing else. */
  function Violations(dto: CreditDto, today: EpochDay): (vs: seq<Violation>)
    ensures vs == [] <==> IsValid(dto, today)
    ensures forall v :: v in vs <==> Broken(dto, today, v)
  {
    Require(dto.numberOfInstallments >= MinInstallments,
            Violation(NumberOfInstallments, Min(MinInstallments), None))
    + Require(dto.numberOfInstallments <= MaxInstallments,
              Violation(NumberOfInstallments, Max(MaxInstallments), None))
    + Require(dto.dayFirstInstallment > today,
              Violation(DayFirstInstallment, Future, Some(NotFutureDate)))
  }

  /** The installment bounds are inclusive: 1 and 48 pass, 0 and 49 do not. */
  lemma InstallmentBoundsInclusive(dto: CreditDto, today: EpochDay)
    requires dto.dayFirstInstallment > today
    ensures IsValid(dto.(numberOfInstallments := 1), today)
    ensures IsValid(dto.(numberOfInstallments := 48), today)
    ensures !IsValid(dto.(numberOfInstallments := 0), today)
    ensures !IsValid(dto.(numberOfInstallments := 49), today)
  {
  }

  /** A first installment due today or earlier is refused whatever the count. */
  lemma PastDateRejected(dto: CreditDto, today: EpochDay)
    requires dto.dayFirstInstallment <= today
    ensures Violation(DayFirstInstallment, Future, Some(NotFutureDate)) in Violations(dto, today)
  {
  }

  /** The new credit a request describes. `code` is the random UUID the entity
      draws for itself; the owner is a blank customer carrying only the id. */
  function ToEntity(dto: CreditDto, code: Uuid): (c: Credit)
    ensures c.creditCode == code && c.status == DefaultStatus
    ensures c.creditValue == dto.creditValue
    ensures c.numberOfInstallments == dto.numberOfInstallments
    ensures c.dayFirstInstallment == dto.dayFirstInstallment
    ensures OwnerId(c) == Some(dto.customerId)
    ensures c.customer.Some? && c.customer.value.(id := None) == DefaultCustomer
  {
    Credit(code, dto.creditValue, dto.numberOfInstallments, dto.dayFirstInstallment,
           DefaultStatus, Some(DefaultCustomer.(id := Some(dto.customerId))))
  }
}
