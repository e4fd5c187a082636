/** The request body of a customer update: a partial overwrite of exactly
    five fields of a stored customer. */
module CustomerUpdateDtos {
  import opened Wrappers
  import opened Entities
  import opened Validation

  datatype CustomerUpdateDto = CustomerUpdateDto(
    firstName: string,
    lastName: string,
    income: Money,
    zipCode: string,
    street: string)


  /** The `@NotEmpty` constraints; income is only `@NotNull`, which a
      non-nullable value always meets. */
  predicate IsValid(dto: CustomerUpdateDto)
  {
    dto.firstName != "" && dto.lastName != "" && dto.zipCode != "" && dto.street != ""
  }

  /** True when `v` is one of the violations the DTO's annotations report. */
  predicate Broken(dto: CustomerUpdateDto, v: Violation)
  {
    || (v == Violation(FirstName, NotEmpty, Some(InvalidInput)) && dto.firstName == "")
    || (v == Violation(LastName, NotEmpty, Some(InvalidInput)) && dto.lastName == "")
    || (v == Violation(ZipCode, NotEmpty, Some(InvalidInput)) && dto.zipCode == "")
    || (v == Violation(Street, NotEmpty, Some(InvalidInput)) && dto.street == "")
  }

  /** The details list of a refused update: every broken constraint and nothing else. */
  function Violations(dto: CustomerUpdateDto): (vs: seq<Violation>)
    ensures vs == [] <==> IsValid(dto)
    ensures forall v :: v in vs <==> Broken(dto, v)
  {
    RequireNotEmpty(FirstName, dto.firstName, InvalidInput)
    + RequireNotEmpty(LastName, dto.lastName, InvalidInput)
    + RequireNotEmpty(ZipCode, dto.zipCode, InvalidInput)
    + RequireNotEmpty(Street, dto.street, InvalidInput)
  }

  /** The fields an update never touches: id, CPF, email and password. */
  predicate SameUntouched(a: Customer, b: Customer)
  {
    a.id == b.id && a.cpf == b.cpf && a.email == b.email && a.password == b.password
  }

  /** True when the customer already shows the DTO's five values. */
  predicate Shows(c: Customer, dto: CustomerUpdateDto)
  {
    && c.firstName == dto.firstName
    && c.lastName == dto.lastName
    && c.income == dto.income
    && c.address == Address(dto.zipCode, dto.street)
  }

  /** The customer after the update: the DTO's five values over the rest of
      the stored customer. */
  function ToEntity(dto: CustomerUpdateDto, customer: Customer): (c: Customer)
    ensures Shows(c, dto)
    ensures SameUntouched(c, customer)
  {
    customer.(firstName := dto.firstName, lastName := dto.lastName, income := dto.income,
              address := Address(dto.zipCode, dto.street))
  }

  /** Exactly five fields change: the result is the unique customer that
      shows the DTO's values and agrees with the input everywhere else. */
  lemma ToEntityCharacterised(dto: CustomerUpdateDto, customer: Customer, c: Customer)
    ensures c == ToEntity(dto, customer) <==> Shows(c, dto) && SameUntouched(c, customer)
  {
  }

  /** The result depends on the stored customer only through its untouched fields. */
  lemma ToEntityDependsOnlyOnUntouched(dto: CustomerUpdateDto, a: Customer, b: Customer)
    ensures ToEntity(dto, a) == ToEntity(dto, b) <==> SameUntouched(a, b)
  {
  }

  /** Updating a customer that already shows the DTO's values changes nothing. */
  lemma ToEntityNoOp(dto: CustomerUpdateDto, customer: Customer)
    ensures ToEntity(dto, customer) == customer <==> Shows(customer, dto)
  {
  }

  /** Applying the same update twice equals applying it once. */
  lemma ToEntityIdempotent(dto: CustomerUpdateDto, customer: Customer)
    ensures ToEntity(dto, ToEntity(dto, customer)) == ToEntity(dto, customer)
  {
  }

  /** Last write wins: an update followed by another equals the second alone. */
  lemma ToEntityLastWriteWins(a: CustomerUpdateDto, b: CustomerUpdateDto, customer: Customer)
    ensures ToEntity(b, ToEntity(a, customer)) == ToEntity(b, customer)
  {
  }

  /** The update scenario of the customer resource: a stored customer updated
      with new names, income and address keeps its CPF and email. */
  lemma UpdateKeepsCpfAndEmail(customer: Customer)
    requires customer.cpf == "28475934625" && customer.email == "joao@email.com"
    ensures var dto := CustomerUpdateDto("JoãoUpdate", "SilvaUpdate", 50000.0, "45678901", "Rua Update");
      && IsValid(dto)
      && ToEntity(dto, customer) == customer.(firstName := "JoãoUpdate", lastName := "SilvaUpdate",
                                             income := 50000.0, address := Address("45678901", "Rua Update"))
      && ToEntity(dto, customer).cpf == "28475934625"
      && ToEntity(dto, customer).email == "joao@email.com"
  {
  }
}
