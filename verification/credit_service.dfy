/** The credit workflow over in-memory stores: the customer repository as a
    map from id to customer and the credit repository as a map from public
    code to credit. The three operations mirror the credit service interface. */
module CreditService {
  import opened Wrappers
  import opened Entities

  /** The exceptions the workflow raises. */
  datatype Error =
    | NotFound(customerId: int)       // the customer service's failed lookup by id
    | BusinessError(message: string)  // BusinessException
    | NotPermitted(message: string)   // IllegalArgumentException

  const CreditCodeNotFound := "Creditcode not found"
  const ContactAdmin := "Contact admin"
  const InvalidDateSelected := "Invalid Date selected"

  datatype Stores = Stores(customers: map<int, Customer>, credits: map<Uuid, Credit>)

  /** What the database guarantees of its rows: a customer is stored under its
      own id, a credit under its own code, no two customers share a CPF, and a
      credit's owner is the customer row its foreign key refers to. A credit
      here holds its owner by value, so the last conjunct is what makes that
      value the current customer row, as loading the reference would. */
  predicate Consistent(s: Stores)
  {
    && (forall id :: id in s.customers ==> s.customers[id].id == Some(id))
    && (forall code :: code in s.credits ==> s.credits[code].creditCode == code)
    && (forall i, j :: i in s.customers && j in s.customers && i != j ==>
          s.customers[i].cpf != s.customers[j].cpf)
    && (forall code :: code in s.credits && OwnerId(s.credits[code]).Some? ==>
          && OwnerId(s.credits[code]).value in s.customers
          && s.credits[code].customer == Some(s.customers[OwnerId(s.credits[code]).value]))
  }

  /** The customer service's lookup by id: it fails exactly when the id is unknown. */
  function FindCustomerById(customers: map<int, Customer>, id: int): (r: Result<Customer, Error>)
    ensures r.Success? <==> id in customers
    ensures r.Success? ==> r.value == customers[id]
    ensures r.Failure? ==> r.error == NotFound(id)
  {
    if id in customers then Success(customers[id]) else Failure(NotFound(id))
  }

  /** `save(credit)`: resolve the owner by the id the credit carries, attach the
      stored customer, then persist under the credit's code. The lookup comes
      first, so an unknown owner leaves both stores as they were. The caller
      must supply an owner with an id: the source dereferences it with `!!`. */
  function Save(s: Stores, credit: Credit): (r: (Stores, Result<Credit, Error>))
    requires OwnerId(credit).Some?
    ensures var id := OwnerId(credit).value;
      && (r.1.Failure? <==> id !in s.customers)
      && (r.1.Failure? ==> r.1.error == NotFound(id) && r.0 == s)
      && (r.1.Success? ==>
            && r.1.value.customer == Some(s.customers[id])
            && r.1.value.(customer := credit.customer) == credit
            && r.0.customers == s.customers
            && r.0.credits.Keys == s.credits.Keys + {credit.creditCode}
            && r.0.credits[credit.creditCode] == r.1.value
            && (forall code :: code in s.credits && code != credit.creditCode ==>
                  r.0.credits[code] == s.credits[code]))
  {
    match FindCustomerById(s.customers, OwnerId(credit).value)
    case Failure(e) => (s, Failure(e))
    case Success(owner) =>
      var persisted := credit.(customer := Some(owner));
      (s.(credits := s.credits[persisted.creditCode := persisted]), Success(persisted))
  }

  /** The codes of the stored credits owned by `customerId`. */
  function OwnedCodes(credits: map<Uuid, Credit>, customerId: int): set<Uuid>
  {
    set code | code in credits && OwnerId(credits[code]) == Some(customerId)
  }

  /** True when no code occurs twice in `codes`. */
  predicate Distinct(codes: seq<Uuid>)
  {
    forall i, j :: 0 <= i < j < |codes| ==> codes[i] != codes[j]
  }

  /** A sequence without repetitions has as many distinct elements as entries. */
  lemma {:induction false} DistinctCardinality(codes: seq<Uuid>)
    requires Distinct(codes)
    ensures |set i | 0 <= i < |codes| :: codes[i]| == |codes|
  {
    if codes != [] {
      var prefix := codes[..|codes| - 1];
      assert Distinct(prefix);
      DistinctCardinality(prefix);
      var last := codes[|codes| - 1];
      assert (set i | 0 <= i < |codes| :: codes[i])
          == (set i | 0 <= i < |prefix| :: prefix[i]) + {last};
      assert last !in (set i | 0 <= i < |prefix| :: prefix[i]);
    }
  }

  /** `findAllByCustomer(customerId)`: every stored credit whose owner id is
      `customerId`, in no promised order. An empty list is a normal answer.
      Nothing is written. The ghost `codes` names the stored row each entry
      comes from: one entry per owned row, none twice. */
  method FindAllByCustomer(credits: map<Uuid, Credit>, customerId: int)
    returns (r: seq<Credit>, ghost codes: seq<Uuid>)
    ensures |codes| == |r|
    ensures forall i :: 0 <= i < |r| ==> codes[i] in credits && r[i] == credits[codes[i]]
    ensures Distinct(codes)
    ensures forall code :: code in codes <==> code in OwnedCodes(credits, customerId)
    ensures forall c :: c in r ==> c in credits.Values && OwnerId(c) == Some(customerId)
    ensures |r| == |OwnedCodes(credits, customerId)|
  {
    r, codes := [], [];
    var todo := credits.Keys;
    ghost var done: set<Uuid> := {};
    while todo != {}
      invariant todo !! done && todo + done == credits.Keys
      invariant |codes| == |r|
      invariant forall i :: 0 <= i < |codes| ==>
                  codes[i] in done && OwnerId(credits[codes[i]]) == Some(customerId)
      invariant forall i :: 0 <= i < |r| ==> r[i] == credits[codes[i]]
      invariant Distinct(codes)
      invariant forall code :: code in done && OwnerId(credits[code]) == Some(customerId) ==> code in codes
      decreases todo
    {
      var code :| code in todo;
      if OwnerId(credits[code]) == Some(customerId) {
        r, codes := r + [credits[code]], codes + [code];
      }
      todo := todo - {code};
      done := done + {code};
    }
    DistinctCardinality(codes);
    assert (set i | 0 <= i < |codes| :: codes[i]) == OwnedCodes(credits, customerId);
  }

  /** `findByCreditCode(customerId, creditCode)`: an unknown code is a business
      error; a credit whose owner id is not `customerId` (another customer's,
      or one with no owner) is refused; otherwise the stored credit. */
  function FindByCreditCode(credits: map<Uuid, Credit>, customerId: int, code: Uuid): (r: Result<Credit, Error>)
    ensures code !in credits ==> r == Failure(BusinessError(CreditCodeNotFound))
    ensures code in credits && OwnerId(credits[code]) != Some(customerId) ==>
              r == Failure(NotPermitted(ContactAdmin))
    ensures r.Success? <==> code in credits && OwnerId(credits[code]) == Some(customerId)
    ensures r.Success? ==> r.value == credits[code] && OwnerId(r.value) == Some(customerId)
  {
    if code !in credits then Failure(BusinessError(CreditCodeNotFound))
    else if OwnerId(credits[code]) == Some(customerId) then Success(credits[code])
    else Failure(NotPermitted(ContactAdmin))
  }

  /** `validDayFirstInstallment(day)`, with `windowEnd` standing for
      `LocalDate.now().plusMonths(3)`: true when the day is strictly before the
      end of the window, a business error otherwise; it never answers false.
      Nothing calls it. */
  function ValidDayFirstInstallment(day: EpochDay, windowEnd: EpochDay): (r: Result<bool, Error>)
    ensures r.Success? <==> day < windowEnd
    ensures r.Success? ==> r.value
    ensures r.Failure? ==> r.error == BusinessError(InvalidDateSelected)
  {
    if day < windowEnd then Success(true) else Failure(BusinessError(InvalidDateSelected))
  }
}
