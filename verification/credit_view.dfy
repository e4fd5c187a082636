/** The response body for one credit: a projection of the credit and of the
    owner's contact and income. */
module CreditViews {
  import opened Wrappers
  import opened Entities

  datatype CreditView = CreditView(
    creditCode: Uuid,
    creditValue: Money,
    numberOfInstallment: int,
    status: Status,
    emailCustomer: Option<string>,
    incomeCustomer: Option<Money>)

  /** The secondary constructor `CreditView(credit)`. */
  function FromCredit(credit: Credit): (v: CreditView)
    ensures v.creditCode == credit.creditCode
    ensures v.creditValue == credit.creditValue
    ensures v.numberOfInstallment == credit.numberOfInstallments
    ensures v.status == credit.status
    ensures credit.customer.Some? ==>
              v.emailCustomer == Some(credit.customer.value.email)
              && v.incomeCustomer == Some(credit.customer.value.income)
    ensures credit.customer.None? ==> v.emailCustomer.None? && v.incomeCustomer.None?
  {
    match credit.customer
    case None =>
      CreditView(credit.creditCode, credit.creditValue, credit.numberOfInstallments,
                 credit.status, None, None)
    case Some(owner) =>
      CreditView(credit.creditCode, credit.creditValue, credit.numberOfInstallments,
                 credit.status, Some(owner.email), Some(owner.income))
  }

  /** What the view shows of a credit: it is a function of these values and
      of nothing else. */
  predicate SameVisible(a: Credit, b: Credit)
  {
    && a.creditCode == b.creditCode
    && a.creditValue == b.creditValue
    && a.numberOfInstallments == b.numberOfInstallments
    && a.status == b.status
    && a.customer.Some? == b.customer.Some?
    && (a.customer.Some? ==>
          a.customer.value.email == b.customer.value.email
          && a.customer.value.income == b.customer.value.income)
  }

  /** Two credits have the same view exactly when they agree on what is
      visible; so the first-installment date, the owner's id and every other
      owner field stay hidden. */
  lemma ViewExposesOnlyVisible(a: Credit, b: Credit)
    ensures FromCredit(a) == FromCredit(b) <==> SameVisible(a, b)
  {
  }

  /** In particular, changing the date or the owner's id never changes the view. */
  lemma ViewHidesDateAndOwnerId(credit: Credit, day: EpochDay, id: Option<int>)
    ensures FromCredit(credit.(dayFirstInstallment := day)) == FromCredit(credit)
    ensures credit.customer.Some? ==>
              FromCredit(credit.(customer := Some(credit.customer.value.(id := id)))) == FromCredit(credit)
  {
  }
}
