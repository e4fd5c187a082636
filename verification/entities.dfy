/** The JPA entities the request and response objects are built from.
    Their classes are not part of this model; the shapes below follow how
    the DTOs and the credit service use them. */
module Entities {
  import opened Wrappers

  /** `java.math.BigDecimal`: exact decimal arithmetic, so a real, never a float. */
  type Money = real

  /** `java.time.LocalDate`, as a count of days since the epoch. */
  type EpochDay = int

  /** `java.util.UUID`, the credit's public code; only compared for equality. */
  datatype Uuid = Uuid(bits: nat)

  /** Embedded address of a customer. */
  datatype Address = Address(zipCode: string, street: string)

  /** A customer row. `id` is assigned by the store and is `None` before the
      first save. The one-to-many `credits` list is derived from the credit
      store and is not a field here. */
  datatype Customer = Customer(
    id: Option<int>,
    firstName: string,
    lastName: string,
    cpf: string,
    income: Money,
    email: string,
    password: string,
    address: Address)

  /** Credit status; the workflow sets it only through the entity default. */
  datatype Status = InProgress | Approved | Reject

  /** A credit row. `customer` is the many-to-one owner reference. */
  datatype Credit = Credit(
    creditCode: Uuid,
    creditValue: Money,
    numberOfInstallments: int,
    dayFirstInstallment: EpochDay,
    status: Status,
    customer: Option<Customer>)

  /** The customer built by the entity's no-argument defaults: every string
      empty, income zero, no id. */
  const DefaultCustomer := Customer(None, "", "", "", 0.0, "", "", Address("", ""))

  /** The status a freshly built credit carries. */
  const DefaultStatus := InProgress

  /** `credit.customer?.id`: the owner's id, absent when there is no owner or
      the owner has no id. */
  function OwnerId(credit: Credit): Option<int>
  {
    match credit.customer
    case None => None
    case Some(owner) => owner.id
  }
}
