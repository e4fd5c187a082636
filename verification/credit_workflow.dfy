/** Properties that relate several steps of the credit workflow: a request
    mapped to an entity, saved, read back by code or by owner, and projected
    to a view. */
module CreditWorkflow {
  import opened Wrappers
  import opened Entities
  import opened CreditDtos
  import opened CreditViews
  import opened CreditService

  /** Saving a credit keeps the store invariant: the new row is stored under its
      own code and the customers are untouched. */
  lemma SavePreservesConsistent(s: Stores, credit: Credit)
    requires Consistent(s) && OwnerId(credit).Some?
    ensures Consistent(Save(s, credit).0)
  {
  }

  /** A credit saved for an existing customer is found again by its code, and
      only by that customer: the owner attached by the save carries the id the
      lookup compares against. */
  lemma SaveThenFindByCreditCode(s: Stores, credit: Credit, asker: int)
    requires Consistent(s) && OwnerId(credit).Some? && OwnerId(credit).value in s.customers
    ensures var (after, saved) := Save(s, credit);
      && saved.Success?
      && OwnerId(saved.value) == OwnerId(credit)
      && (asker == OwnerId(credit).value ==>
            FindByCreditCode(after.credits, asker, credit.creditCode) == saved)
      && (asker != OwnerId(credit).value ==>
            FindByCreditCode(after.credits, asker, credit.creditCode) == Failure(NotPermitted(ContactAdmin)))
  {
  }

  /** Saving a credit for customer `id` adds its code to that customer's credits
      and removes it from every other customer's (the code may have been stored
      before, under another owner). */
  lemma SaveThenOwnedCodes(s: Stores, credit: Credit, other: int)
    requires Consistent(s) && OwnerId(credit).Some? && OwnerId(credit).value in s.customers
    ensures var after := Save(s, credit).0; var id := OwnerId(credit).value;
      && OwnedCodes(after.credits, id) == OwnedCodes(s.credits, id) + {credit.creditCode}
      && (other != id ==>
            OwnedCodes(after.credits, other) == OwnedCodes(s.credits, other) - {credit.creditCode})
  {
  }

  /** The first-installment date plays no part in saving: the three-month
      window rule is not consulted, so any date saves exactly when the owner
      exists, and the stored credit carries the date unchanged. */
  lemma SaveIgnoresInstallmentWindow(s: Stores, credit: Credit, day: EpochDay, windowEnd: EpochDay)
    requires OwnerId(credit).Some?
    ensures var saved := Save(s, credit.(dayFirstInstallment := day)).1;
      && (saved.Success? <==> OwnerId(credit).value in s.customers)
      && (ValidDayFirstInstallment(day, windowEnd).Failure? && OwnerId(credit).value in s.customers ==>
            saved.Success? && saved.value.dayFirstInstallment == day)
  {
  }

  /** The request constraints do not include the window rule: for every clock,
      some valid request has a first installment the rule would refuse. */
  lemma ValidRequestOutsideWindow(today: EpochDay, windowEnd: EpochDay, value: Money, customerId: int)
    ensures var day := if windowEnd > today then windowEnd else today + 1;
            var dto := CreditDto(value, MaxInstallments, day, customerId);
      && CreditDtos.IsValid(dto, today)
      && ValidDayFirstInstallment(dto.dayFirstInstallment, windowEnd).Failure?
  {
  }

  /** End to end: a request for a stored customer is saved, and the view of the
      saved credit shows the request's value and installment count, the
      default status, and the stored customer's email and income. */
  lemma RequestSaveView(s: Stores, dto: CreditDto, code: Uuid)
    requires dto.customerId in s.customers
    ensures var saved := Save(s, CreditDtos.ToEntity(dto, code)).1;
      && saved.Success?
      && FromCredit(saved.value) == CreditView(code, dto.creditValue, dto.numberOfInstallments,
                                              DefaultStatus,
                                              Some(s.customers[dto.customerId].email),
                                              Some(s.customers[dto.customerId].income))
  {
  }

  /** At most one customer can read a given credit by its code. */
  lemma AtMostOneReader(credits: map<Uuid, Credit>, code: Uuid, a: int, b: int)
    requires FindByCreditCode(credits, a, code).Success?
    requires FindByCreditCode(credits, b, code).Success?
    ensures a == b
  {
  }

  /** A stored credit without an owner, or whose owner has no id, is refused to
      every customer. */
  lemma OwnerlessCreditRefused(credits: map<Uuid, Credit>, code: Uuid, asker: int)
    requires code in credits && OwnerId(credits[code]).None?
    ensures FindByCreditCode(credits, asker, code) == Failure(NotPermitted(ContactAdmin))
  {
  }

  /** The view of a credit a customer may read shows that customer's current
      email and income, as the store holds them. */
  lemma FoundCreditViewShowsOwner(s: Stores, asker: int, code: Uuid)
    requires Consistent(s)
    requires FindByCreditCode(s.credits, asker, code).Success?
    ensures asker in s.customers
    ensures var view := FromCredit(FindByCreditCode(s.credits, asker, code).value);
      view.emailCustomer == Some(s.customers[asker].email)
      && view.incomeCustomer == Some(s.customers[asker].income)
  {
  }
}
