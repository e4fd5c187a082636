/** The request body of customer creation, its constraints and its mapping
    onto a new customer entity. */
module CustomerDtos {
  import opened Wrappers
  import opened Entities
  import opened Validation

  datatype CustomerDto = CustomerDto(
    firstName: string,
    lastName: string,
    cpf: string,
    income: Money,
    email: string,
    password: string,
    zipCode: string,
    street: string)

  const InvalidCpf := "Invalid CPF input. Try again"
  const InvalidEmailFormat := "Invalid email format. Try again"
  const InvalidEmail := "Invalid email input. Try again"
  const InvalidZipCode := "Invalid zip code input. Try again"
  const InvalidStreet := "Invalid street input. Try again"

  /** The constraints the annotations declare. The CPF checksum and the email
      syntax belong to the validator library and stay uninterpreted:
      `isCpf` and `isEmail` stand for them. */
  predicate IsValid(dto: CustomerDto, isCpf: string -> bool, isEmail: string -> bool)
  {
    && dto.firstName != ""
    && dto.lastName != ""
    && dto.cpf != "" && isCpf(dto.cpf)
    && dto.email != "" && isEmail(dto.email)
    && dto.password != ""
    && dto.zipCode != ""
    && dto.street != ""
  }

  /** True when `v` is one of the violations the DTO's annotations report. */
  predicate Broken(dto: CustomerDto, isCpf: string -> bool, isEmail: string -> bool, v: Violation)
  {
    || (v == Violation(FirstName, NotEmpty, Some(InvalidInput)) && dto.firstName == "")
    || (v == Violation(LastName, NotEmpty, Some(InvalidInput)) && dto.lastName == "")
    || (v == Violation(Cpf, NotEmpty, Some(InvalidInput)) && dto.cpf == "")
    || (v == Violation(Cpf, CpfFormat, Some(InvalidCpf)) && !isCpf(dto.cpf))
    || (v == Violation(Email, EmailFormat, Some(InvalidEmailFormat)) && !isEmail(dto.email))
    || (v == Violation(Email, NotEmpty, Some(InvalidEmail)) && dto.email == "")
    || (v == Violation(Password, NotEmpty, Some(InvalidInput)) && dto.password == "")
    || (v == Violation(ZipCode, NotEmpty, Some(InvalidZipCode)) && dto.zipCode == "")
    || (v == Violation(Street, NotEmpty, Some(InvalidStreet)) && dto.street == "")
  }

  /** The details list of a refused request: every broken constraint, with the
      message its annotation declares, and nothing else. */
  function Violations(dto: CustomerDto, isCpf: string -> bool, isEmail: string -> bool): (vs: seq<Violation>)
    ensures vs == [] <==> IsValid(dto, isCpf, isEmail)
    ensures forall v :: v in vs <==> Broken(dto, isCpf, isEmail, v)
  {
    RequireNotEmpty(FirstName, dto.firstName, InvalidInput)
    + RequireNotEmpty(LastName, dto.lastName, InvalidInput)
    + RequireNotEmpty(Cpf, dto.cpf, InvalidInput)
    + Require(isCpf(dto.cpf), Violation(Cpf, CpfFormat, Some(InvalidCpf)))
    + Require(isEmail(dto.email), Violation(Email, EmailFormat, Some(InvalidEmailFormat)))
    + RequireNotEmpty(Email, dto.email, InvalidEmail)
    + RequireNotEmpty(Password, dto.password, InvalidInput)
    + RequireNotEmpty(ZipCode, dto.zipCode, InvalidZipCode)
    + RequireNotEmpty(Street, dto.street, InvalidStreet)
  }

  /** Reads a customer's fields back into the shape of a creation request. */
  function ReadBack(c: Customer): CustomerDto
  {
    CustomerDto(c.firstName, c.lastName, c.cpf, c.income, c.email, c.password,
                c.address.zipCode, c.address.street)
  }

  /** The new, not yet stored, customer a creation request describes. */
  function ToEntity(dto: CustomerDto): (c: Customer)
    ensures c.id == None
    ensures c.firstName == dto.firstName && c.lastName == dto.lastName
    ensures c.cpf == dto.cpf && c.income == dto.income
    ensures c.email == dto.email && c.password == dto.password
    ensures c.address == Address(dto.zipCode, dto.street)
    ensures ReadBack(c) == dto
  {
    Customer(None, dto.firstName, dto.lastName, dto.cpf, dto.income, dto.email,
             dto.password, Address(dto.zipCode, dto.street))
  }

  /** Two different requests never describe the same customer. */
  lemma ToEntityInjective(a: CustomerDto, b: CustomerDto)
    ensures ToEntity(a) == ToEntity(b) <==> a == b
  {
  }

  /** Reading back is a left inverse of the mapping on unsaved customers:
      every customer without an id is the image of exactly its read-back. */
  lemma ToEntityReadBack(c: Customer)
    requires c.id == None
    ensures ToEntity(ReadBack(c)) == c
  {
  }

  /** A request with an empty first name is refused, with at least one detail. */
  lemma EmptyFirstNameRejected(dto: CustomerDto, isCpf: string -> bool, isEmail: string -> bool)
    requires dto.firstName == ""
    ensures !IsValid(dto, isCpf, isEmail)
    ensures Violation(FirstName, NotEmpty, Some(InvalidInput)) in Violations(dto, isCpf, isEmail)
  {
  }
}
